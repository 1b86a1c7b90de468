/** Which values each keyword takes and what the message then holds, written out keyword by
    keyword: the shapes a caller can check before it calls. */
module CodecShapes {
  import opened Wrappers
  import opened Codec
  import opened RunCodec

  predicate FlagOrNone(v: Value) { v == Null || (v.One? && v.s.Flag?) }

  predicate TextOrNone(v: Value) { v == Null || (v.One? && v.s.Text?) }

  /** A double takes whole numbers too. */
  predicate NumberOrNone(v: Value) { v == Null || (v.One? && (v.s.Number? || v.s.Whole?)) }

  predicate CountOrNone(v: Value, bound: int) { v == Null || (v.One? && v.s.Whole? && 0 <= v.s.n < bound) }

  const EMPTY_SCALARS := {Flag(false), Whole(0), Number(0.0), Text("")}

  /** Python's empty and zero values, which a collection keyword treats as not given. */
  predicate Empty(v: Value) {
    v == Null || v == Items([]) || v == Pairs(map[]) || (v.One? && v.s in EMPTY_SCALARS)
  }

  /** What each keyword of `run_container` takes. No other keyword is taken at all. */
  predicate Takes(f: Field, v: Value) {
    match f
    case Privileged | EntrypointClear | Detach | NetworkHost | IpcHost | AutoRemove => FlagOrNone(v)
    case MemoryLimitGb | ShmSizeGb => NumberOrNone(v)
    case PidsLimit => CountOrNone(v, 0x1_0000_0000)
    case NofileLimit => CountOrNone(v, 0x1_0000_0000_0000_0000)
    case User => TextOrNone(v)
    case CacheDirs | PortMappings | Devices | CapAdd => Empty(v) || v.Items? || (v.One? && v.s.Text?)
    case Mounts | Ulimits => Empty(v) || v.Pairs?
    case Command => v == Null || v.Items? || (v.One? && v.s.Text?)
    case Mode | CreatedAt | WorldSize | Generation | Rank | Other(_) => false
  }

  /** What each optional attribute of the metadata takes. */
  predicate AttributeTakes(f: Field, v: Value) {
    match f
    case Mode | CreatedAt => TextOrNone(v)
    case MemoryLimitGb | ShmSizeGb => NumberOrNone(v)
    case Privileged => FlagOrNone(v)
    case WorldSize => CountOrNone(v, 0x1_0000_0000)
    case _ => true
  }

  lemma EmptyIsFalsy(v: Value)
    ensures Empty(v) <==> !Truthy(v)
  {
    if v.One? {
      assert v.s in EMPTY_SCALARS <==> v.s == Flag(false) || v.s == Whole(0) || v.s == Number(0.0) || v.s == Text("");
    }
  }

  lemma AttributeIff(f: Field, v: Value)
    requires IsMetadata(f)
    ensures Settable(f, v) <==> AttributeTakes(f, v)
  {
  }

  lemma KeywordIff(f: Field, v: Value)
    ensures Takes(f, v) <==>
      && IsCarried(f)
      && (IsOptional(f) ==> Settable(f, v)) && (IsCollection(f) ==> Gatherable(f, v)) && (f.Command? ==> CommandFits(v))
  {
    EmptyIsFalsy(v);
  }

  lemma AbsentIsTaken(f: Field)
    ensures IsOptional(f) ==> Settable(f, Null)
    ensures IsCollection(f) ==> Gatherable(f, Null)
  {
  }

  lemma KwargsFitIff(kwargs: Kwargs)
    ensures KwargsFit(kwargs) <==> forall f :: f in kwargs ==> Takes(f, kwargs[f])
  {
    forall f
      ensures f in kwargs ==>
        (Takes(f, kwargs[f]) <==>
          && IsCarried(f)
          && (IsOptional(f) ==> Settable(f, Get(kwargs, f))) && (IsCollection(f) ==> Gatherable(f, Get(kwargs, f)))
          && (f.Command? ==> CommandFits(Get(kwargs, Command))))
      ensures f !in kwargs && IsOptional(f) ==> Settable(f, Get(kwargs, f))
      ensures f !in kwargs && IsCollection(f) ==> Gatherable(f, Get(kwargs, f))
    {
      KeywordIff(f, Get(kwargs, f));
      AbsentIsTaken(f);
    }
    if KwargsFit(kwargs) {
      forall f | f in kwargs
        ensures Takes(f, kwargs[f])
      {
        assert f !in NotCarriedBy(kwargs);
      }
    }
  }

  /** A call encodes if and only if each keyword, each attribute and both numbers are of the shape
      their name takes. */
  lemma EncodableIff(call: Call)
    ensures Encodable(call) <==>
      var md := OrDefault(call.metadata);
      && (forall f :: f in call.kwargs ==> Takes(f, call.kwargs[f]))
      && (forall f :: IsMetadata(f) ==> AttributeTakes(f, Get(md.values, f)))
      && 0 <= md.generation < 0x1_0000_0000 && 0 <= md.rank < 0x1_0000_0000
  {
    KwargsFitIff(call.kwargs);
    MetadataFieldsAre();
    var values := OrDefault(call.metadata).values;
    forall f | IsMetadata(f)
      ensures Settable(f, Get(values, f)) <==> AttributeTakes(f, Get(values, f))
    {
      AttributeIff(f, Get(values, f));
    }
  }

  // ── What the message holds ─────────────────────────────────────────────────

  predicate Doubles(f: Field) { f == MemoryLimitGb || f == ShmSizeGb }

  /** An optional field holds what was given, a whole number in a float field as that float. */
  lemma HeldAsGiven(f: Field, s: Scalar)
    requires Stored(f, s).Some?
    ensures Stored(f, s).value == if Doubles(f) && s.Whole? then Number(s.n as real) else s
  {
  }

  /** Field by field, what an encoded call says: scalars as given, a list item by item in its
      order, a map key by key, a string command as a shell line and a list as its arguments. */
  lemma EncodedSays(str: Scalar -> string, call: Call, f: Field)
    requires Encodable(call) && f in call.kwargs
    ensures var v, args := call.kwargs[f], Encoded(str, call).args;
      && (v.One? && (f in args.present) ==>
            args.present[f] == if Doubles(f) && v.s.Whole? then Number(v.s.n as real) else v.s)
      && (IsOptional(f) ==> (f in args.present <==> v != Null))
      && (IsCollection(f) ==> (f in args.collections <==> !Empty(v)))
      && (f in args.collections && v.Items? ==>
            args.collections[f].Listed? && ItemByItem(str, v.items, args.collections[f].items))
      && (f in args.collections && v.Pairs? ==>
            args.collections[f].Mapped? && KeyByKey(str, v.pairs, args.collections[f].pairs))
      && (f in args.collections && v.One? ==>
            && args.collections[f].Listed? && v.s.Text? && |args.collections[f].items| == |v.s.s|
            && forall i :: 0 <= i < |v.s.s| ==> args.collections[f].items[i] == [v.s.s[i]])
  {
    OptionalSays(call.kwargs, f);
    CollectionSays(str, call.kwargs, f);
  }

  ghost predicate ItemByItem(str: Scalar -> string, given: seq<Scalar>, sent: seq<string>) {
    |sent| == |given| && forall i :: 0 <= i < |given| ==> sent[i] == str(given[i])
  }

  ghost predicate KeyByKey(str: Scalar -> string, given: map<string, Scalar>, sent: map<string, string>) {
    sent.Keys == given.Keys && forall k :: k in given ==> sent[k] == str(given[k])
  }

  lemma OptionalSays(kwargs: Kwargs, f: Field)
    requires KwargsFit(kwargs) && f in kwargs
    ensures IsOptional(f) ==> (f in Told(kwargs) <==> kwargs[f] != Null)
    ensures f in Told(kwargs) ==>
      && kwargs[f].One? && IsOptional(f)
      && Told(kwargs)[f] == if Doubles(f) && kwargs[f].s.Whole? then Number(kwargs[f].s.n as real) else kwargs[f].s
  {
    assert IsOptional(f) ==> Settable(f, Get(kwargs, f));
    if f in Told(kwargs) {
      HeldAsGiven(f, kwargs[f].s);
    }
  }

  lemma CollectionSays(str: Scalar -> string, kwargs: Kwargs, f: Field)
    requires KwargsFit(kwargs) && f in kwargs
    ensures var v, sent := kwargs[f], Gathered(str, kwargs);
      && (IsCollection(f) ==> (f in sent <==> !Empty(v)))
      && (f in sent && v.Items? ==> sent[f].Listed? && ItemByItem(str, v.items, sent[f].items))
      && (f in sent && v.Pairs? ==> sent[f].Mapped? && KeyByKey(str, v.pairs, sent[f].pairs))
      && (f in sent && v.One? ==>
            && sent[f].Listed? && v.s.Text? && |sent[f].items| == |v.s.s|
            && forall i :: 0 <= i < |v.s.s| ==> sent[f].items[i] == [v.s.s[i]])
  {
    assert IsCollection(f) ==> Gatherable(f, Get(kwargs, f));
    GatherableGathers(str, f, kwargs[f]);
    EmptyIsFalsy(kwargs[f]);
  }

  /** The rest of an encoded call: its names, its environment and metadata under their own
      headings, and its command. */
  lemma EncodedHeader(str: Scalar -> string, call: Call)
    requires Encodable(call)
    ensures var m, md := Encoded(str, call), OrDefault(call.metadata);
      && m.image == call.image && m.name == call.name && KeyByKey(str, call.env, m.env)
      && m.metadata.deployment == md.deployment && m.metadata.recipe == md.recipe && m.metadata.image == md.image
      && m.metadata.generation == md.generation && m.metadata.rank == md.rank
    ensures var command := Get(call.kwargs, Command);
      match Encoded(str, call).args.command
      case None => command == Null
      case Some(Shell(line)) => command == One(Text(line))
      case Some(Argv(parts)) => command.Items? && ItemByItem(str, command.items, parts)
      case Some(Formless) => false
  {
  }

  ghost predicate AsTexts(v: Value, sent: seq<string>) {
    v.Items? && |v.items| == |sent| && forall i :: 0 <= i < |sent| ==> v.items[i] == Text(sent[i])
  }

  ghost predicate AsTextPairs(given: map<string, Scalar>, sent: map<string, string>) {
    given.Keys == sent.Keys && forall k :: k in sent ==> given[k] == Text(sent[k])
  }

  /** What the node is called with: each heading of the message under its own name. */
  lemma DecodedHeader(m: RunContainer)
    requires Wire(m)
    ensures var call := Decoded(m);
      && call.image == m.image && call.name == m.name && AsTextPairs(call.env, m.env)
      && call.metadata == Some(DecodedMetadata(m.metadata))
  {
  }

  lemma CollectionRead(c: Collection)
    ensures match c
      case Listed(items) => AsTexts(AsValue(c), items)
      case Mapped(pairs) => AsValue(c).Pairs? && AsTextPairs(AsValue(c).pairs, pairs)
  {
  }

  lemma CommandRead(cmd: Cmd)
    ensures match cmd
      case Formless => DecodedCommand(cmd) == Null
      case Shell(line) => DecodedCommand(cmd) == One(Text(line))
      case Argv(parts) => AsTexts(DecodedCommand(cmd), parts)
  {
  }

  /** It is given a keyword for exactly what the message carries, with the value it carries. A
      command without a form comes out as None. */
  lemma DecodedSays(a: Args, f: Field)
    requires ArgsWire(a)
    ensures var kwargs := DecodedArgs(a);
      && (f in kwargs <==> f in a.present || f in a.collections || (f == Command && a.command.Some?))
      && (f in a.present ==> kwargs[f] == One(a.present[f]))
      && (f in a.collections ==>
            match a.collections[f]
            case Listed(items) => AsTexts(kwargs[f], items)
            case Mapped(pairs) => kwargs[f].Pairs? && AsTextPairs(kwargs[f].pairs, pairs))
      && (f == Command && a.command.Some? ==>
            match a.command.value
            case Formless => kwargs[f] == Null
            case Shell(line) => kwargs[f] == One(Text(line))
            case Argv(parts) => AsTexts(kwargs[f], parts))
  {
    DecodedAt(a, f);
    if f in a.collections {
      CollectionRead(a.collections[f]);
    } else if f == Command && a.command.Some? {
      CommandRead(a.command.value);
    }
  }

  /** A message that says nothing of the metadata reads back as the documented defaults. */
  lemma SilentMetadata(m: MetadataMessage)
    requires m.present == map[]
    ensures var md := DecodedMetadata(m);
      && md.deployment == m.deployment && md.recipe == m.recipe && md.image == m.image
      && md.generation == m.generation && md.rank == m.rank
      && Get(md.values, Mode) == One(Text("solo")) && Get(md.values, ShmSizeGb) == One(Number(64.0))
      && Get(md.values, Privileged) == One(Flag(true)) && Get(md.values, WorldSize) == One(Whole(1))
      && Get(md.values, CreatedAt) == Null && Get(md.values, MemoryLimitGb) == Null
  {
    MetadataGot(m, Mode);
    MetadataGot(m, ShmSizeGb);
    MetadataGot(m, Privileged);
    MetadataGot(m, WorldSize);
    MetadataGot(m, CreatedAt);
    MetadataGot(m, MemoryLimitGb);
  }
}
