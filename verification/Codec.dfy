/** Typed message fields with presence, and the metadata codec built on them. */
module Codec {
  import opened Wrappers

  datatype Scalar = Flag(b: bool) | Whole(n: int) | Number(x: real) | Text(s: string)

  /** A keyword argument's value; `Null` is Python's None. */
  datatype Value = Null | One(s: Scalar) | Items(items: seq<Scalar>) | Pairs(pairs: map<string, Scalar>)

  /** Keyword names; `Other` is any name the protocol has no field for. */
  datatype Field =
    | Privileged | MemoryLimitGb | ShmSizeGb | PidsLimit | NofileLimit | EntrypointClear | Detach
    | NetworkHost | IpcHost | AutoRemove | User
    | CacheDirs | PortMappings | Devices | CapAdd | Mounts | Ulimits
    | Command
    | Mode | CreatedAt | WorldSize | Generation | Rank
    | Other(name: string)

  datatype Kind = Bool | Double | Uint32 | Uint64 | Str | Repeated | Mapping | Form | NoField

  function KindOf(f: Field): Kind {
    match f
    case Privileged | EntrypointClear | Detach | NetworkHost | IpcHost | AutoRemove => Bool
    case MemoryLimitGb | ShmSizeGb => Double
    case PidsLimit | WorldSize => Uint32
    case NofileLimit => Uint64
    case User | Mode | CreatedAt => Str
    case CacheDirs | PortMappings | Devices | CapAdd => Repeated
    case Mounts | Ulimits => Mapping
    case Command => Form
    case Generation | Rank | Other(_) => NoField
  }

  predicate InU32(n: int) { 0 <= n < 0x1_0000_0000 }

  type U32 = n: int | InU32(n)

  /** What a typed message field holds after the assignment, or a refusal. */
  function Stored(f: Field, s: Scalar): Option<Scalar> {
    match (KindOf(f), s)
    case (Bool, Flag(_)) => Some(s)
    case (Str, Text(_)) => Some(s)
    case (Double, Number(_)) => Some(s)
    case (Double, Whole(n)) => Some(Number(n as real))
    case (Uint32, Whole(n)) => if InU32(n) then Some(s) else None
    case (Uint64, Whole(n)) => if 0 <= n < 0x1_0000_0000_0000_0000 then Some(s) else None
    case _ => None
  }

  type Kwargs = map<Field, Value>

  function Get(values: Kwargs, f: Field): Value { if f in values then values[f] else Null }

  // ── Presence ───────────────────────────────────────────────────────────────

  predicate Settable(f: Field, v: Value) { v.Null? || (v.One? && Stored(f, v.s).Some?) }

  predicate AllSettable(fields: seq<Field>, values: Kwargs) {
    forall f :: f in fields ==> Settable(f, Get(values, f))
  }

  predicate FirstUnfit(fields: seq<Field>, values: Kwargs, i: nat)
    requires i < |fields|
  {
    !Settable(fields[i], Get(values, fields[i])) && AllSettable(fields[..i], values)
  }

  predicate Says(f: Field, values: Kwargs) { f in values && values[f].One? && Stored(f, values[f].s).Some? }

  /** The fields that end up present: the ones the caller said something about. */
  function Present(fields: seq<Field>, values: Kwargs): map<Field, Scalar> {
    map f | f in fields && Says(f, values) :: Stored(f, values[f].s).value
  }

  method SetOptionals(fields: seq<Field>, values: Kwargs) returns (r: Result<map<Field, Scalar>, Field>)
    ensures r.Ok? <==> AllSettable(fields, values)
    ensures r.Ok? ==> r.value == Present(fields, values)
    ensures r.Err? ==> exists i :: 0 <= i < |fields| && fields[i] == r.error && FirstUnfit(fields, values, i)
  {
    var message: map<Field, Scalar> := map[];
    for i := 0 to |fields|
      invariant AllSettable(fields[..i], values)
      invariant message == Present(fields[..i], values)
    {
      var f := fields[i];
      assert fields[..i + 1] == fields[..i] + [f];
      var v := Get(values, f);
      if !Settable(f, v) {
        assert FirstUnfit(fields, values, i);
        return Err(f);
      }
      if v.One? {
        message := message[f := Stored(f, v.s).value];
      }
    }
    assert fields[..|fields|] == fields;
    return Ok(message);
  }

  /** The present fields, as keyword arguments. */
  function Spoken(message: map<Field, Scalar>, fields: seq<Field>): Kwargs {
    map f | f in fields && f in message :: One(message[f])
  }

  method AddPresent(message: map<Field, Scalar>, fields: seq<Field>, start: Kwargs) returns (kwargs: Kwargs)
    ensures kwargs == start + Spoken(message, fields)
  {
    kwargs := start;
    for i := 0 to |fields|
      invariant kwargs == start + Spoken(message, fields[..i])
    {
      var f := fields[i];
      assert fields[..i + 1] == fields[..i] + [f];
      if f in message {
        kwargs := kwargs[f := One(message[f])];
      }
    }
    assert fields[..|fields|] == fields;
  }

  /** What a value reads back as: whole numbers become floats in float fields. */
  function AsStored(f: Field, v: Value): Value {
    if v.One? && Stored(f, v.s).Some? then One(Stored(f, v.s).value) else v
  }

  lemma StoredTwice(f: Field, s: Scalar)
    requires Stored(f, s).Some?
    ensures Stored(f, Stored(f, s).value) == Stored(f, s)
  {
  }

  // ── Metadata ───────────────────────────────────────────────────────────────

  const METADATA_FIELDS := [Mode, CreatedAt, MemoryLimitGb, ShmSizeGb, Privileged, WorldSize]

  /** `values` holds an attribute for each of METADATA_FIELDS. */
  datatype Metadata = Metadata(deployment: string, recipe: string, image: string, generation: int, rank: int,
                               values: Kwargs)

  datatype MetadataMessage = MetadataMessage(deployment: string, recipe: string, image: string,
                                             generation: U32, rank: U32, present: map<Field, Scalar>)

  function Default(f: Field): Value {
    match f
    case Mode => One(Text("solo"))
    case ShmSizeGb => One(Number(64.0))
    case Privileged => One(Flag(true))
    case WorldSize => One(Whole(1))
    case _ => Null
  }

  predicate IsMetadata(f: Field) {
    f.Mode? || f.CreatedAt? || f.MemoryLimitGb? || f.ShmSizeGb? || f.Privileged? || f.WorldSize?
  }

  lemma MetadataFieldsAre()
    ensures forall f :: f in METADATA_FIELDS <==> IsMetadata(f)
  {
  }

  /** The attributes whose default is not None. */
  predicate HasDefault(f: Field) { Default(f) != Null }

  function Defaults(): Kwargs { map f | f in METADATA_FIELDS :: Default(f) }

  ghost predicate Complete(md: Metadata) { forall f :: f in md.values <==> IsMetadata(f) }

  /** Every number in range, and every attribute None or of its field's type. */
  ghost predicate MetadataFits(md: Metadata) {
    InU32(md.generation) && InU32(md.rank) && AllSettable(METADATA_FIELDS, md.values)
  }

  function EncodedMetadata(md: Metadata): MetadataMessage
    requires InU32(md.generation) && InU32(md.rank)
  {
    MetadataMessage(md.deployment, md.recipe, md.image, md.generation, md.rank, Present(METADATA_FIELDS, md.values))
  }

  function DecodedMetadata(m: MetadataMessage): Metadata {
    Metadata(m.deployment, m.recipe, m.image, m.generation, m.rank, Defaults() + Spoken(m.present, METADATA_FIELDS))
  }

  predicate MetadataWire(m: MetadataMessage) {
    forall f :: f in m.present ==> f in METADATA_FIELDS && Stored(f, m.present[f]) == Some(m.present[f])
  }

  lemma EncodedMetadataIsWire(md: Metadata)
    requires InU32(md.generation) && InU32(md.rank)
    ensures MetadataWire(EncodedMetadata(md))
  {
    var m := EncodedMetadata(md);
    forall f | f in m.present
      ensures Stored(f, m.present[f]) == Some(m.present[f])
    {
      StoredTwice(f, md.values[f].s);
    }
  }

  function OrDefault(metadata: Option<Metadata>): Metadata {
    if metadata.Some? then metadata.value else Metadata("", "", "", 0, 0, Defaults())
  }

  method EncodeMetadata(metadata: Option<Metadata>) returns (r: Result<MetadataMessage, Field>)
    ensures var md := OrDefault(metadata);
      && (r.Ok? <==> MetadataFits(md))
      && (r.Ok? ==> r.value == EncodedMetadata(md))
      && (r.Err? ==> match r.error
                     case Generation => !InU32(md.generation)
                     case Rank => !InU32(md.rank)
                     case f => !Settable(f, Get(md.values, f)))
  {
    var md := OrDefault(metadata);
    if !InU32(md.generation) {
      return Err(Generation);
    }
    if !InU32(md.rank) {
      return Err(Rank);
    }
    var fields := SetOptionals(METADATA_FIELDS, md.values);
    match fields
    case Err(f) => return Err(f);
    case Ok(present) =>
      return Ok(MetadataMessage(md.deployment, md.recipe, md.image, md.generation, md.rank, present));
  }

  method DecodeMetadata(m: MetadataMessage) returns (md: Metadata)
    ensures md == DecodedMetadata(m)
  {
    var kwargs := AddPresent(m.present, METADATA_FIELDS, map[]);
    assert kwargs == Spoken(m.present, METADATA_FIELDS);
    md := Metadata(m.deployment, m.recipe, m.image, m.generation, m.rank, Defaults() + kwargs);
  }

  predicate Answered(md: Metadata, f: Field) { Get(md.values, f) != Null }

  lemma MetadataBack(md: Metadata, f: Field)
    requires Complete(md) && MetadataFits(md)
    ensures var back := DecodedMetadata(EncodedMetadata(md)).values;
      && (f in back <==> IsMetadata(f))
      && (IsMetadata(f) ==> back[f] == if md.values[f].Null? then Default(f) else AsStored(f, md.values[f]))
  {
    MetadataFieldsAre();
    if IsMetadata(f) {
      assert Settable(f, Get(md.values, f));
    }
  }

  function ReadBack(md: Metadata): Kwargs { map f | f in md.values :: AsStored(f, md.values[f]) }

  lemma MetadataBackIff(md: Metadata, f: Field)
    requires Complete(md) && MetadataFits(md)
    ensures var back, want := DecodedMetadata(EncodedMetadata(md)).values, ReadBack(md);
      && (f in back <==> f in want) && (HasDefault(f) ==> f in want)
      && (f in want ==> (back[f] == want[f] <==> !HasDefault(f) || Answered(md, f)))
  {
    MetadataBack(md, f);
    DefaultsAreStored(f);
  }

  /** Metadata survives the wire exactly when no attribute with a default is None: a None
      there comes back as the default. */
  lemma MetadataRoundTripIff(md: Metadata)
    requires Complete(md) && MetadataFits(md)
    ensures var back := DecodedMetadata(EncodedMetadata(md));
      && Complete(back)
      && (back == md.(values := ReadBack(md))
          <==> forall f :: HasDefault(f) ==> Answered(md, f))
  {
    var back := DecodedMetadata(EncodedMetadata(md)).values;
    var want := ReadBack(md);
    forall f
      ensures (f in back <==> f in want) && (HasDefault(f) ==> f in want)
      ensures f in want ==> (back[f] == want[f] <==> !HasDefault(f) || Answered(md, f))
    {
      MetadataBackIff(md, f);
    }
    SameIff(back, want);
  }

  lemma SameIff(a: Kwargs, b: Kwargs)
    requires forall f :: f in a <==> f in b
    ensures a == b <==> forall f :: f in b ==> a[f] == b[f]
  {
  }

  lemma MetadataGot(m: MetadataMessage, f: Field)
    requires MetadataWire(m)
    ensures var values := DecodedMetadata(m).values;
      && (f in values <==> IsMetadata(f))
      && (IsMetadata(f) ==> values[f] == if f in m.present then One(m.present[f]) else Default(f))
      && (f in m.present ==> IsMetadata(f))
  {
    MetadataFieldsAre();
  }

  lemma DefaultsAreStored(f: Field)
    ensures HasDefault(f) ==> IsMetadata(f) && Default(f).One? && Stored(f, Default(f).s) == Some(Default(f).s)
    ensures !HasDefault(f) ==> Default(f).Null?
  {
  }

  lemma MetadataAgain(m: MetadataMessage, f: Field)
    requires MetadataWire(m)
    ensures IsMetadata(f) ==> Settable(f, Get(DecodedMetadata(m).values, f))
    ensures var again := EncodedMetadata(DecodedMetadata(m)).present;
      && (f in again <==> f in m.present || HasDefault(f))
      && (f in m.present ==> again[f] == m.present[f])
  {
    MetadataGot(m, f);
    DefaultsAreStored(f);
    MetadataFieldsAre();
  }

  /** A received message re-encodes to itself exactly when it carries every defaulted field. */
  lemma MetadataReencodesIff(m: MetadataMessage)
    requires MetadataWire(m)
    ensures MetadataFits(DecodedMetadata(m))
    ensures EncodedMetadata(DecodedMetadata(m)) == m <==> forall f :: HasDefault(f) ==> f in m.present
  {
    MetadataFieldsAre();
    var again := EncodedMetadata(DecodedMetadata(m)).present;
    forall f
      ensures IsMetadata(f) ==> Settable(f, Get(DecodedMetadata(m).values, f))
      ensures f in again <==> f in m.present || HasDefault(f)
      ensures f in m.present ==> again[f] == m.present[f]
    {
      MetadataAgain(m, f);
    }
    if forall f :: HasDefault(f) ==> f in m.present {
      assert again == m.present;
    }
  }
}
