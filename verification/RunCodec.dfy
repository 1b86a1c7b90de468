/** The `run_container` call on the wire. */
module RunCodec {
  import opened Wrappers
  import opened Codec

  const RUN_OPTIONAL_FIELDS := [Privileged, MemoryLimitGb, ShmSizeGb, PidsLimit, NofileLimit, EntrypointClear,
                                Detach, NetworkHost, IpcHost, AutoRemove, User]
  const RUN_LIST_FIELDS := [CacheDirs, PortMappings, Devices, CapAdd]
  const RUN_MAP_FIELDS := [Mounts, Ulimits]
  const RUN_COLLECTION_FIELDS := [CacheDirs, PortMappings, Devices, CapAdd, Mounts, Ulimits]

  predicate IsOptional(f: Field) {
    !f.Mode? && !f.CreatedAt? && !f.WorldSize? && match KindOf(f)
    case Bool | Double | Uint32 | Uint64 | Str => true
    case _ => false
  }

  predicate IsCollection(f: Field) { KindOf(f).Repeated? || KindOf(f).Mapping? }

  predicate IsCarried(f: Field) { IsOptional(f) || IsCollection(f) || f.Command? }

  lemma RunFieldsAre()
    ensures forall f :: f in RUN_OPTIONAL_FIELDS <==> IsOptional(f)
    ensures forall f :: f in RUN_COLLECTION_FIELDS <==> IsCollection(f)
    ensures forall f :: f in RUN_LIST_FIELDS <==> KindOf(f).Repeated?
    ensures forall f :: f in RUN_MAP_FIELDS <==> KindOf(f).Mapping?
  {
  }

  // ── Messages ───────────────────────────────────────────────────────────────

  datatype Cmd = Formless | Shell(line: string) | Argv(parts: seq<string>)

  /** A repeated or map field that is not empty. */
  datatype Collection = Listed(items: seq<string>) | Mapped(pairs: map<string, string>)

  /** What a message says of the keyword arguments: the optional fields that are set, the
      collections that are not empty, and the command. */
  datatype Args = Args(present: map<Field, Scalar>, collections: map<Field, Collection>, command: Option<Cmd>)

  datatype RunContainer = RunContainer(
    image: string, name: string, env: map<string, string>, metadata: MetadataMessage, args: Args)

  datatype Call = Call(image: string, name: string, env: map<string, Scalar>, metadata: Option<Metadata>, kwargs: Kwargs)

  datatype Refusal = BadValue(f: Field) | NotCarried(fields: set<Field>)

  ghost predicate Wire(m: RunContainer) { MetadataWire(m.metadata) && ArgsWire(m.args) }

  ghost predicate ArgsWire(a: Args) {
    && (forall f :: f in a.present ==> IsOptional(f) && Stored(f, a.present[f]) == Some(a.present[f]))
    && (forall f :: f in a.collections ==> CollectionWire(f, a.collections[f]))
  }

  predicate CollectionWire(f: Field, c: Collection) {
    match c
    case Listed(items) => KindOf(f).Repeated? && items != []
    case Mapped(pairs) => KindOf(f).Mapping? && pairs != map[]
  }

  // ── Strings ────────────────────────────────────────────────────────────────

  /** `str(x)`, which leaves a string alone. */
  ghost predicate KeepsText(str: Scalar -> string) { forall s :: str(Text(s)) == s }

  function Strs(str: Scalar -> string, xs: seq<Scalar>): seq<string> { seq(|xs|, i requires 0 <= i < |xs| => str(xs[i])) }

  function Chars(s: string): seq<string> { seq(|s|, i requires 0 <= i < |s| => [s[i]]) }

  function StrPairs(str: Scalar -> string, m: map<string, Scalar>): map<string, string> { map k | k in m :: str(m[k]) }

  function Texts(xs: seq<string>): seq<Scalar> { seq(|xs|, i requires 0 <= i < |xs| => Text(xs[i])) }

  function TextPairs(m: map<string, string>): map<string, Scalar> { map k | k in m :: Text(m[k]) }

  lemma TextsBack(str: Scalar -> string)
    requires KeepsText(str)
    ensures forall xs :: Strs(str, Texts(xs)) == xs
    ensures forall m :: StrPairs(str, TextPairs(m)) == m
  {
  }

  // ── Encoding ───────────────────────────────────────────────────────────────

  /** Python's truth of a value. */
  predicate Truthy(v: Value) {
    match v
    case Null => false
    case One(Flag(b)) => b
    case One(Whole(n)) => n != 0
    case One(Number(x)) => x != 0.0
    case One(Text(s)) => s != ""
    case Items(items) => items != []
    case Pairs(pairs) => pairs != map[]
  }

  /** `extend(str(item) for item in value)` or `update(...)`; a string is its characters, and a
      value of the wrong shape raises. */
  function Gather(str: Scalar -> string, f: Field, v: Value): Option<Collection> {
    match (KindOf(f), v)
    case (Repeated, Items(items)) => Some(Listed(Strs(str, items)))
    case (Repeated, One(Text(s))) => Some(Listed(Chars(s)))
    case (Mapping, Pairs(pairs)) => Some(Mapped(StrPairs(str, pairs)))
    case _ => None
  }

  predicate Gatherable(f: Field, v: Value) {
    !Truthy(v) || (KindOf(f).Repeated? && (v.Items? || (v.One? && v.s.Text?))) || (KindOf(f).Mapping? && v.Pairs?)
  }

  predicate AllGatherable(fields: seq<Field>, kwargs: Kwargs) {
    forall f :: f in fields ==> Gatherable(f, Get(kwargs, f))
  }

  predicate Collects(f: Field, kwargs: Kwargs) {
    f in kwargs && Truthy(kwargs[f]) && Gatherable(f, kwargs[f])
  }

  lemma GatherableGathers(str: Scalar -> string, f: Field, v: Value)
    ensures Truthy(v) ==> (Gatherable(f, v) <==> Gather(str, f, v).Some?)
    ensures Gather(str, f, v).Some? ==> IsCollection(f)
  {
  }

  function GatheredFrom(str: Scalar -> string, fields: seq<Field>, kwargs: Kwargs): map<Field, Collection> {
    map f | f in fields && Collects(f, kwargs) && Gather(str, f, kwargs[f]).Some? :: Gather(str, f, kwargs[f]).value
  }

  function Gathered(str: Scalar -> string, kwargs: Kwargs): map<Field, Collection> {
    map f | f in kwargs && IsCollection(f) && Collects(f, kwargs) && Gather(str, f, kwargs[f]).Some?
      :: Gather(str, f, kwargs[f]).value
  }

  /** The optional fields that end up set. */
  function Told(kwargs: Kwargs): map<Field, Scalar> {
    map f | f in kwargs && IsOptional(f) && Says(f, kwargs) :: Stored(f, kwargs[f].s).value
  }

  lemma ToldIs(kwargs: Kwargs)
    ensures Present(RUN_OPTIONAL_FIELDS, kwargs) == Told(kwargs)
    ensures AllSettable(RUN_OPTIONAL_FIELDS, kwargs) <==> forall f :: IsOptional(f) ==> Settable(f, Get(kwargs, f))
  {
    RunFieldsAre();
    forall f
      ensures f in Present(RUN_OPTIONAL_FIELDS, kwargs) <==> f in Told(kwargs)
    {
    }
  }

  lemma GatheredIs(str: Scalar -> string, kwargs: Kwargs)
    ensures GatheredFrom(str, RUN_COLLECTION_FIELDS, kwargs) == Gathered(str, kwargs)
    ensures AllGatherable(RUN_COLLECTION_FIELDS, kwargs)
       <==> forall f :: IsCollection(f) ==> Gatherable(f, Get(kwargs, f))
  {
    RunFieldsAre();
    forall f
      ensures f in GatheredFrom(str, RUN_COLLECTION_FIELDS, kwargs) <==> f in Gathered(str, kwargs)
    {
    }
  }

  predicate CommandFits(v: Value) { v.Null? || v.Items? || (v.One? && v.s.Text?) }

  function EncodedCommand(str: Scalar -> string, v: Value): Option<Cmd> {
    match v
    case One(Text(s)) => Some(Shell(s))
    case Items(items) => Some(Argv(Strs(str, items)))
    case _ => None
  }

  function NotCarriedBy(kwargs: Kwargs): set<Field> { set f | f in kwargs && !IsCarried(f) }

  ghost predicate ValuesFit(kwargs: Kwargs) {
    && (forall f :: IsOptional(f) ==> Settable(f, Get(kwargs, f)))
    && (forall f :: IsCollection(f) ==> Gatherable(f, Get(kwargs, f)))
    && CommandFits(Get(kwargs, Command))
  }

  ghost predicate KwargsFit(kwargs: Kwargs) { ValuesFit(kwargs) && NotCarriedBy(kwargs) == {} }

  ghost predicate Encodable(call: Call) { MetadataFits(OrDefault(call.metadata)) && KwargsFit(call.kwargs) }

  function EncodedArgs(str: Scalar -> string, kwargs: Kwargs): Args {
    Args(Told(kwargs), Gathered(str, kwargs), EncodedCommand(str, Get(kwargs, Command)))
  }

  function Encoded(str: Scalar -> string, call: Call): RunContainer
    requires InU32(OrDefault(call.metadata).generation) && InU32(OrDefault(call.metadata).rank)
  {
    RunContainer(call.image, call.name, StrPairs(str, call.env), EncodedMetadata(OrDefault(call.metadata)),
                 EncodedArgs(str, call.kwargs))
  }

  lemma OneMoreGathered(str: Scalar -> string, fields: seq<Field>, i: nat, kwargs: Kwargs)
    requires i < |fields|
    ensures var f := fields[i];
      && (AllGatherable(fields[..i + 1], kwargs) <==> AllGatherable(fields[..i], kwargs) && Gatherable(f, Get(kwargs, f)))
      && GatheredFrom(str, fields[..i + 1], kwargs)
      == if Collects(f, kwargs) && Gather(str, f, kwargs[f]).Some?
         then GatheredFrom(str, fields[..i], kwargs)[f := Gather(str, f, kwargs[f]).value]
         else GatheredFrom(str, fields[..i], kwargs)
  {
  }

  method GatherCollections(str: Scalar -> string, fields: seq<Field>, kwargs: Kwargs)
    returns (r: Result<map<Field, Collection>, Field>)
    ensures r.Ok? <==> AllGatherable(fields, kwargs)
    ensures r.Ok? ==> r.value == GatheredFrom(str, fields, kwargs)
    ensures r.Err? ==> !Gatherable(r.error, Get(kwargs, r.error))
  {
    var message: map<Field, Collection> := map[];
    for i := 0 to |fields|
      invariant AllGatherable(fields[..i], kwargs)
      invariant message == GatheredFrom(str, fields[..i], kwargs)
    {
      var f := fields[i];
      OneMoreGathered(str, fields, i, kwargs);
      var v := Get(kwargs, f);
      if !Truthy(v) {
        continue;
      }
      GatherableGathers(str, f, v);
      var gathered := Gather(str, f, v);
      if gathered.None? {
        return Err(f);
      }
      message := message[f := gathered.value];
    }
    assert fields[..|fields|] == fields;
    return Ok(message);
  }

  /** Encodes a call or refuses it; a keyword the protocol does not carry is never dropped. */
  method EncodeRunContainer(str: Scalar -> string, call: Call) returns (r: Result<RunContainer, Refusal>)
    ensures r.Ok? <==> Encodable(call)
    ensures r.Ok? ==> r.value == Encoded(str, call)
    ensures r.Err? && r.error.NotCarried?
       <==> MetadataFits(OrDefault(call.metadata)) && ValuesFit(call.kwargs) && NotCarriedBy(call.kwargs) != {}
    ensures r.Err? && r.error.NotCarried? ==> r.error.fields == NotCarriedBy(call.kwargs)
  {
    var metadata := EncodeMetadata(call.metadata);
    if metadata.Err? {
      return Err(BadValue(metadata.error));
    }
    ToldIs(call.kwargs);
    var present := SetOptionals(RUN_OPTIONAL_FIELDS, call.kwargs);
    if present.Err? {
      return Err(BadValue(present.error));
    }
    GatheredIs(str, call.kwargs);
    var collections := GatherCollections(str, RUN_COLLECTION_FIELDS, call.kwargs);
    if collections.Err? {
      return Err(BadValue(collections.error));
    }
    var command := Get(call.kwargs, Command);
    if !CommandFits(command) {
      return Err(BadValue(Command));
    }
    var unknown := NotCarriedBy(call.kwargs);
    if unknown != {} {
      return Err(NotCarried(unknown));
    }
    return Ok(RunContainer(call.image, call.name, StrPairs(str, call.env), metadata.value,
                           Args(present.value, collections.value, EncodedCommand(str, command))));
  }

  // ── Decoding ───────────────────────────────────────────────────────────────

  function AsValue(c: Collection): Value {
    match c
    case Listed(items) => Items(Texts(items))
    case Mapped(pairs) => Pairs(TextPairs(pairs))
  }

  function Collected(collections: map<Field, Collection>, fields: seq<Field>): Kwargs {
    map f | f in fields && f in collections :: AsValue(collections[f])
  }

  function DecodedCommand(cmd: Cmd): Value {
    match cmd
    case Formless => Null
    case Shell(line) => One(Text(line))
    case Argv(parts) => Items(Texts(parts))
  }

  function AsOnes(present: map<Field, Scalar>): Kwargs { map f | f in present :: One(present[f]) }

  function AsValues(collections: map<Field, Collection>): Kwargs { map f | f in collections :: AsValue(collections[f]) }

  function DecodedArgs(a: Args): Kwargs {
    AsOnes(a.present) + AsValues(a.collections)
    + (if a.command.Some? then map[Command := DecodedCommand(a.command.value)] else map[])
  }

  function Decoded(m: RunContainer): Call {
    Call(m.image, m.name, TextPairs(m.env), Some(DecodedMetadata(m.metadata)), DecodedArgs(m.args))
  }

  lemma OneMoreCollected(collections: map<Field, Collection>, fields: seq<Field>, i: nat)
    requires i < |fields|
    ensures Collected(collections, fields[..i + 1])
         == if fields[i] in collections then Collected(collections, fields[..i])[fields[i] := AsValue(collections[fields[i]])]
            else Collected(collections, fields[..i])
  {
  }

  method AddCollections(collections: map<Field, Collection>, fields: seq<Field>, start: Kwargs)
    returns (kwargs: Kwargs)
    ensures kwargs == start + Collected(collections, fields)
  {
    kwargs := start;
    for i := 0 to |fields|
      invariant kwargs == start + Collected(collections, fields[..i])
    {
      var f := fields[i];
      OneMoreCollected(collections, fields, i);
      if f in collections {
        kwargs := kwargs[f := AsValue(collections[f])];
      }
    }
    assert fields[..|fields|] == fields;
  }

  method DecodeFields(a: Args) returns (kwargs: Kwargs)
    requires ArgsWire(a)
    ensures kwargs == AsOnes(a.present) + AsValues(a.collections)
  {
    kwargs := AddPresent(a.present, RUN_OPTIONAL_FIELDS, map[]);
    ghost var b, c := Collected(a.collections, RUN_LIST_FIELDS), Collected(a.collections, RUN_MAP_FIELDS);
    MergeLast(kwargs, b, c);
    kwargs := AddCollections(a.collections, RUN_LIST_FIELDS, kwargs);
    kwargs := AddCollections(a.collections, RUN_MAP_FIELDS, kwargs);
    SpokenIs(a);
    CollectedIs(a);
  }

  method DecodeRunContainer(m: RunContainer) returns (call: Call)
    requires Wire(m)
    ensures call == Decoded(m)
  {
    var metadata := DecodeMetadata(m.metadata);
    var kwargs := DecodeFields(m.args);
    PutIsMerge(kwargs, Command, if m.args.command.Some? then DecodedCommand(m.args.command.value) else Null);
    if m.args.command.Some? {
      kwargs := kwargs[Command := DecodedCommand(m.args.command.value)];
    }
    call := Call(m.image, m.name, TextPairs(m.env), Some(metadata), kwargs);
  }

  lemma PutIsMerge(a: Kwargs, f: Field, v: Value)
    ensures a + map[f := v] == a[f := v] && a + map[] == a
  {
  }

  lemma SpokenIs(a: Args)
    requires ArgsWire(a)
    ensures Spoken(a.present, RUN_OPTIONAL_FIELDS) == AsOnes(a.present)
  {
  }

  lemma CollectedIs(a: Args)
    requires ArgsWire(a)
    ensures Collected(a.collections, RUN_LIST_FIELDS) + Collected(a.collections, RUN_MAP_FIELDS)
         == AsValues(a.collections)
  {
    RunFieldsAre();
    assert forall f :: f in a.collections ==> CollectionWire(f, a.collections[f]);
  }

  lemma MergeLast(a: Kwargs, b: Kwargs, c: Kwargs)
    ensures a + b + c == a + (b + c) && map[] + a == a
  {
  }

  // ── Round trips ────────────────────────────────────────────────────────────

  /** What the node is told about one keyword argument, if anything: None and empty collections
      say nothing; the items of a collection or an argv become strings. */
  function Normal(str: Scalar -> string, f: Field, v: Value): Option<Value> {
    if v.Null? || (IsCollection(f) && !Truthy(v)) then None
    else if IsOptional(f) then Some(AsStored(f, v))
    else match v
      case Items(items) => Some(Items(Texts(Strs(str, items))))
      case Pairs(pairs) => Some(Pairs(TextPairs(StrPairs(str, pairs))))
      case One(Text(s)) => if IsCollection(f) then Some(Items(Texts(Chars(s)))) else Some(v)
      case _ => Some(v)
  }

  function NormalKwargs(str: Scalar -> string, kwargs: Kwargs): Kwargs {
    map f | f in kwargs && Normal(str, f, kwargs[f]).Some? :: Normal(str, f, kwargs[f]).value
  }

  /** What decoded arguments say of one keyword. */
  lemma DecodedAt(a: Args, f: Field)
    requires ArgsWire(a)
    ensures f in a.present ==> IsOptional(f) && f !in a.collections && !f.Command?
    ensures f in a.collections ==> IsCollection(f) && !f.Command?
    ensures var kwargs := DecodedArgs(a);
      && (f in kwargs <==> f in a.present || f in a.collections || (f.Command? && a.command.Some?))
      && (f in a.present ==> kwargs[f] == One(a.present[f]))
      && (f in a.collections ==> kwargs[f] == AsValue(a.collections[f]))
      && (f.Command? && a.command.Some? ==> kwargs[f] == DecodedCommand(a.command.value))
  {
    assert f in a.collections ==> CollectionWire(f, a.collections[f]);
  }

  lemma GatheredIsWire(str: Scalar -> string, f: Field, v: Value)
    requires Truthy(v) && Gather(str, f, v).Some?
    ensures CollectionWire(f, Gather(str, f, v).value)
  {
    assert v.Pairs? && v.pairs != map[] ==> StrPairs(str, v.pairs).Keys == v.pairs.Keys;
  }

  lemma EncodedIsWire(str: Scalar -> string, kwargs: Kwargs)
    ensures ArgsWire(EncodedArgs(str, kwargs))
  {
    var a := EncodedArgs(str, kwargs);
    forall f | f in a.present
      ensures IsOptional(f) && Stored(f, a.present[f]) == Some(a.present[f])
    {
      StoredTwice(f, kwargs[f].s);
    }
    forall f | f in a.collections
      ensures CollectionWire(f, a.collections[f])
    {
      GatheredIsWire(str, f, kwargs[f]);
    }
  }

  lemma OptionalBack(str: Scalar -> string, kwargs: Kwargs, f: Field)
    requires IsOptional(f) && Settable(f, Get(kwargs, f))
    ensures f in Told(kwargs) <==> f in kwargs && Normal(str, f, kwargs[f]).Some?
    ensures f in Told(kwargs) ==> Normal(str, f, kwargs[f]) == Some(One(Told(kwargs)[f]))
  {
  }

  lemma CollectionBack(str: Scalar -> string, kwargs: Kwargs, f: Field)
    requires IsCollection(f) && Gatherable(f, Get(kwargs, f))
    ensures f in Gathered(str, kwargs) <==> f in kwargs && Normal(str, f, kwargs[f]).Some?
    ensures f in Gathered(str, kwargs) ==> Normal(str, f, kwargs[f]) == Some(AsValue(Gathered(str, kwargs)[f]))
  {
    GatherableGathers(str, f, Get(kwargs, f));
  }

  lemma CommandBack(str: Scalar -> string, kwargs: Kwargs)
    requires CommandFits(Get(kwargs, Command))
    ensures var sent := EncodedCommand(str, Get(kwargs, Command));
      && (sent.Some? <==> Command in kwargs && Normal(str, Command, kwargs[Command]).Some?)
      && (sent.Some? ==> Normal(str, Command, kwargs[Command]) == Some(DecodedCommand(sent.value)))
  {
  }

  lemma RoundTripAt(str: Scalar -> string, kwargs: Kwargs, f: Field)
    requires KwargsFit(kwargs)
    ensures var back := DecodedArgs(EncodedArgs(str, kwargs));
      && (f in back <==> f in kwargs && Normal(str, f, kwargs[f]).Some?)
      && (f in back ==> Some(back[f]) == Normal(str, f, kwargs[f]))
  {
    var a := EncodedArgs(str, kwargs);
    EncodedIsWire(str, kwargs);
    DecodedAt(a, f);
    assert f !in NotCarriedBy(kwargs);
    if IsOptional(f) {
      OptionalBack(str, kwargs, f);
    } else if IsCollection(f) {
      CollectionBack(str, kwargs, f);
    } else if f.Command? {
      CommandBack(str, kwargs);
    }
  }

  lemma KwargsRoundTrip(str: Scalar -> string, kwargs: Kwargs)
    requires KwargsFit(kwargs)
    ensures DecodedArgs(EncodedArgs(str, kwargs)) == NormalKwargs(str, kwargs)
  {
    var back, want := DecodedArgs(EncodedArgs(str, kwargs)), NormalKwargs(str, kwargs);
    forall f
      ensures (f in back <==> f in want) && (f in want ==> back[f] == want[f])
    {
      RoundTripAt(str, kwargs, f);
    }
  }

  /** Decoding an encoded call returns exactly the caller's keyword arguments, less the None
      and empty ones, with collection items and arguments as strings. */
  lemma RunRoundTrip(str: Scalar -> string, call: Call)
    requires Encodable(call)
    ensures var back := Decoded(Encoded(str, call));
      && back.image == call.image && back.name == call.name
      && back.env == TextPairs(StrPairs(str, call.env))
      && back.metadata == Some(DecodedMetadata(EncodedMetadata(OrDefault(call.metadata))))
      && back.kwargs == NormalKwargs(str, call.kwargs)
  {
    KwargsRoundTrip(str, call.kwargs);
  }

  /** Keyword arguments come back unchanged exactly when each was already what the node would
      be told. */
  lemma KwargsUnchangedIff(str: Scalar -> string, kwargs: Kwargs)
    requires KwargsFit(kwargs)
    ensures DecodedArgs(EncodedArgs(str, kwargs)) == kwargs
       <==> forall f :: f in kwargs ==> Normal(str, f, kwargs[f]) == Some(kwargs[f])
  {
    KwargsRoundTrip(str, kwargs);
    var back := NormalKwargs(str, kwargs);
    if forall f :: f in kwargs ==> Normal(str, f, kwargs[f]) == Some(kwargs[f]) {
      assert back == kwargs;
    } else {
      var f :| f in kwargs && Normal(str, f, kwargs[f]) != Some(kwargs[f]);
      assert f in back ==> back[f] != kwargs[f];
    }
  }

  lemma GatherAgain(str: Scalar -> string, f: Field, c: Collection)
    requires KeepsText(str) && CollectionWire(f, c)
    ensures Truthy(AsValue(c)) && Gatherable(f, AsValue(c)) && Gather(str, f, AsValue(c)) == Some(c)
  {
    TextsBack(str);
    assert c.Mapped? ==> TextPairs(c.pairs).Keys == c.pairs.Keys;
  }

  lemma ToldAgain(a: Args)
    requires ArgsWire(a)
    ensures forall f :: IsOptional(f) ==> Settable(f, Get(DecodedArgs(a), f))
    ensures Told(DecodedArgs(a)) == a.present
  {
    forall f
      ensures IsOptional(f) ==> Settable(f, Get(DecodedArgs(a), f))
      ensures f in Told(DecodedArgs(a)) <==> f in a.present
      ensures f in a.present ==> Told(DecodedArgs(a))[f] == a.present[f]
    {
      DecodedAt(a, f);
    }
  }

  lemma GatheredAgainAt(str: Scalar -> string, a: Args, f: Field)
    requires ArgsWire(a) && KeepsText(str)
    ensures IsCollection(f) ==> Gatherable(f, Get(DecodedArgs(a), f))
    ensures f in Gathered(str, DecodedArgs(a)) <==> f in a.collections
    ensures f in a.collections ==> Gathered(str, DecodedArgs(a))[f] == a.collections[f]
  {
    DecodedAt(a, f);
    if f in a.collections {
      GatherAgain(str, f, a.collections[f]);
    }
  }

  lemma GatheredAgain(str: Scalar -> string, a: Args)
    requires ArgsWire(a) && KeepsText(str)
    ensures forall f :: IsCollection(f) ==> Gatherable(f, Get(DecodedArgs(a), f))
    ensures Gathered(str, DecodedArgs(a)) == a.collections
  {
    var again := Gathered(str, DecodedArgs(a));
    forall f
      ensures IsCollection(f) ==> Gatherable(f, Get(DecodedArgs(a), f))
      ensures f in again <==> f in a.collections
      ensures f in a.collections ==> again[f] == a.collections[f]
    {
      GatheredAgainAt(str, a, f);
    }
  }

  lemma CommandAgain(str: Scalar -> string, a: Args)
    requires ArgsWire(a) && KeepsText(str)
    ensures CommandFits(Get(DecodedArgs(a), Command))
    ensures EncodedCommand(str, Get(DecodedArgs(a), Command)) == a.command <==> a.command != Some(Formless)
  {
    TextsBack(str);
    DecodedAt(a, Command);
  }

  lemma NothingUnknown(a: Args)
    requires ArgsWire(a)
    ensures NotCarriedBy(DecodedArgs(a)) == {}
  {
  }

  /** A received message decodes to a call that encodes again, to the same message exactly when
      its command has a form and its metadata carries every defaulted field. */
  lemma RunReencodesIff(str: Scalar -> string, m: RunContainer)
    requires Wire(m) && KeepsText(str)
    ensures Encodable(Decoded(m))
    ensures Encoded(str, Decoded(m)) == m
       <==> m.args.command != Some(Formless) && forall f :: HasDefault(f) ==> f in m.metadata.present
  {
    TextsBack(str);
    MetadataReencodesIff(m.metadata);
    ToldAgain(m.args);
    GatheredAgain(str, m.args);
    CommandAgain(str, m.args);
    NothingUnknown(m.args);
  }

  /** So whatever the encoder produced, from metadata with no None where a default exists,
      decodes to a call that encodes to the same message. */
  lemma EncodedTwiceIsSame(str: Scalar -> string, call: Call)
    requires Encodable(call) && KeepsText(str)
    requires forall f :: HasDefault(f) ==> Answered(OrDefault(call.metadata), f)
    ensures Encoded(str, Decoded(Encoded(str, call))) == Encoded(str, call)
  {
    var md := OrDefault(call.metadata);
    EncodedIsWire(str, call.kwargs);
    EncodedMetadataIsWire(md);
    RunReencodesIff(str, Encoded(str, call));
    forall f | HasDefault(f)
      ensures f in EncodedMetadata(md).present
    {
      DefaultsAreStored(f);
      MetadataFieldsAre();
      assert Answered(md, f) && Settable(f, Get(md.values, f));
    }
  }
}
