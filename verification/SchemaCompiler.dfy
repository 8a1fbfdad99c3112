/** Compiling a JSON schema into the strict subset: every node is checked, pruned and closed, and
    names and enumerations are counted over the whole tree. */
module SchemaCompiler {
  import opened Sums
  import opened Wrappers

  /** The words that have a meaning to the compiler. */
  datatype Word =
    | Defs | Ref | AdditionalProperties | AnyOf | Const | Description | Enum | ExclusiveMaximum
    | ExclusiveMinimum | Format | Items | MaxItems | MaxLength | Maximum | MinItems | MinLength
    | Minimum | MultipleOf | Pattern | Properties | Required | Type
    | Default | Examples | Title | Schema
    | ArrayType | BooleanType | IntegerType | NullType | NumberType | ObjectType | StringType
    | DateTime | Time | Date | Duration | Email | Hostname | Ipv4 | Ipv6 | Uuid

  /** Any string: one of the words, "#", "#/$defs/" and a rest, or something else. */
  datatype Text = Word(word: Word) | RootReference | DefinitionReference(rest: string) | Other(text: string)

  datatype Json =
    | Null
    | Bool(b: bool)
    | Number(n: real)
    | Str(s: Text)
    | Arr(items: seq<Json>)
    | Obj(fields: seq<Member>)

  /** Objects keep the order of their keys. */
  datatype Member = Member(key: Text, value: Json)

  datatype Totals = Totals(properties: nat, strings: nat, enumValues: nat)

  const MAX_PROPERTIES := 5000
  const MAX_DEPTH := 10
  const MAX_STRINGS := 120000
  const MAX_ENUM_VALUES := 1000
  const MAX_LARGE_ENUM := 15000

  // ---------- Words ----------

  predicate IsAnnotation(w: Word) { w.Default? || w.Examples? || w.Title? || w.Schema? }

  predicate IsJsonType(w: Word) {
    w.ArrayType? || w.BooleanType? || w.IntegerType? || w.NullType? || w.NumberType? || w.ObjectType? || w.StringType?
  }

  predicate IsFormat(w: Word) {
    w.DateTime? || w.Time? || w.Date? || w.Duration? || w.Email? || w.Hostname? || w.Ipv4? || w.Ipv6? || w.Uuid?
  }

  predicate IsKeyword(w: Word) { !IsAnnotation(w) && !IsJsonType(w) && !IsFormat(w) }

  predicate Annotation(key: Text) { key.Word? && IsAnnotation(key.word) }

  predicate SupportedKey(key: Text) { key.Word? && IsKeyword(key.word) }

  function WordLength(w: Word): nat {
    match w
    case Defs => 5 case Ref => 4 case AdditionalProperties => 20 case AnyOf => 5 case Const => 5
    case Description => 11 case Enum => 4 case ExclusiveMaximum => 16 case ExclusiveMinimum => 16
    case Format => 6 case Items => 5 case MaxItems => 8 case MaxLength => 9 case Maximum => 7
    case MinItems => 8 case MinLength => 9 case Minimum => 7 case MultipleOf => 10 case Pattern => 7
    case Properties => 10 case Required => 8 case Type => 4 case Default => 7 case Examples => 8
    case Title => 5 case Schema => 7 case ArrayType => 5 case BooleanType => 7 case IntegerType => 7
    case NullType => 4 case NumberType => 6 case ObjectType => 6 case StringType => 6 case DateTime => 9
    case Time => 4 case Date => 4 case Duration => 8 case Email => 5 case Hostname => 8 case Ipv4 => 4
    case Ipv6 => 4 case Uuid => 4
  }

  /** The number of characters of a string. */
  function Length(t: Text): nat {
    match t
    case Word(w) => WordLength(w)
    case RootReference => 1
    case DefinitionReference(rest) => 8 + |rest|
    case Other(text) => |text|
  }

  // ---------- Dictionaries ----------

  function IndexOf(fields: seq<Member>, key: Text): (i: nat)
    ensures i <= |fields|
    ensures i < |fields| ==> fields[i].key == key
    ensures forall j :: 0 <= j < i ==> fields[j].key != key
  {
    if fields == [] then 0 else if fields[0].key == key then 0 else 1 + IndexOf(fields[1..], key)
  }

  predicate Has(fields: seq<Member>, w: Word) {
    IndexOf(fields, Word(w)) < |fields|
  }

  /** get: the value under a key, or Null. */
  function Value(fields: seq<Member>, w: Word): Json {
    var i := IndexOf(fields, Word(w));
    if i < |fields| then fields[i].value else Null
  }

  /** Assignment: in place under a known key, at the end under a new one. */
  function Put(fields: seq<Member>, w: Word, value: Json): seq<Member> {
    var i := IndexOf(fields, Word(w));
    if i < |fields| then fields[i := Member(Word(w), value)] else fields + [Member(Word(w), value)]
  }

  function PutIf(fields: seq<Member>, b: bool, w: Word, value: Json): seq<Member> {
    if b then Put(fields, w, value) else fields
  }

  // ---------- The checks on one node ----------

  predicate TypeOk(t: Json) {
    match t
    case Null => true
    case Str(s) => s.Word? && IsJsonType(s.word)
    case Arr(items) =>
      && items != []
      && (forall i :: 0 <= i < |items| ==> items[i].Str? && items[i].s.Word? && IsJsonType(items[i].s.word))
      && (forall i, j :: 0 <= i < j < |items| ==> items[i] != items[j])
    case _ => false
  }

  predicate KnownFormat(f: Json) {
    f == Null || (f.Str? && f.s.Word? && IsFormat(f.s.word))
  }

  function StringLengths(items: seq<Json>): nat {
    if items == [] then 0
    else var n := |items| - 1; StringLengths(items[..n]) + (if items[n].Str? then Length(items[n].s) else 0)
  }

  predicate EnumOk(e: Json) {
    e == Null || (e.Arr? && e.items != [] && !(|e.items| > 250 && StringLengths(e.items) > MAX_LARGE_ENUM))
  }

  predicate ReferenceOk(r: Json) {
    r == Null || (r.Str? && (r.s.RootReference? || r.s.DefinitionReference?))
  }

  /** type says "object", and nothing else. */
  predicate TypedObject(fields: seq<Member>) {
    Value(fields, Type) == Str(Word(ObjectType))
  }

  predicate TypedArray(fields: seq<Member>) {
    Value(fields, Type) == Str(Word(ArrayType))
  }

  predicate KeysOk(fields: seq<Member>) {
    forall i :: 0 <= i < |fields| ==> Annotation(fields[i].key) || SupportedKey(fields[i].key)
  }

  /** A list or dictionary as a format is not merely unsupported: looking it up fails. */
  predicate ScalarsOk(fields: seq<Member>) {
    && TypeOk(Value(fields, Type))
    && !Value(fields, Format).Arr? && !Value(fields, Format).Obj?
    && EnumOk(Value(fields, Enum))
    && ReferenceOk(Value(fields, Ref))
  }

  predicate SlotsOk(fields: seq<Member>) {
    && (TypedObject(fields) ==> Value(fields, Properties).Obj?)
    && (TypedArray(fields) || Has(fields, Items) ==> Value(fields, Items).Obj?)
    && (Value(fields, AnyOf) == Null || (Value(fields, AnyOf).Arr? && Value(fields, AnyOf).items != []))
    && (Value(fields, Defs) == Null || Value(fields, Defs).Obj?)
  }

  predicate LocalOk(fields: seq<Member>) {
    KeysOk(fields) && ScalarsOk(fields) && SlotsOk(fields)
  }

  // ---------- What is accepted, what it becomes, and what is counted ----------

  /** The words under which a node has children, in the order they are visited. */
  function Slot(k: nat): Word
    requires k < 4
  {
    if k == 0 then Properties else if k == 1 then Items else if k == 2 then AnyOf else Defs
  }

  predicate IsSlot(w: Word) { w.Properties? || w.Items? || w.AnyOf? || w.Defs? }

  /** Whether the value under a slot holds children. */
  predicate HasChildren(w: Word, v: Json) {
    if w.AnyOf? then v.Arr? else v.Obj?
  }

  predicate Acceptable(node: Json, depth: nat)
    decreases node, 5
  {
    && node.Obj? && depth <= MAX_DEPTH && LocalOk(node.fields)
    && SlotOk(node, Properties, depth) && SlotOk(node, Items, depth) && SlotOk(node, AnyOf, depth)
    && SlotOk(node, Defs, depth)
  }

  predicate SlotOk(node: Json, w: Word, depth: nat)
    requires node.Obj?
    decreases node, 4
  {
    var v := Value(node.fields, w);
    HasChildren(w, v) ==> AcceptableValue(w, v, depth + 1)
  }

  predicate AcceptableValue(w: Word, v: Json, depth: nat)
    requires HasChildren(w, v)
    decreases v, 6
  {
    if w.Items? then Acceptable(v, depth)
    else if w.AnyOf? then AcceptableItems(v.items, depth)
    else AcceptableMembers(v.fields, depth)
  }

  predicate AcceptableMembers(members: seq<Member>, depth: nat)
    decreases members
  {
    members == [] || (AcceptableMember(members[0], depth) && AcceptableMembers(members[1..], depth))
  }

  predicate AcceptableMember(m: Member, depth: nat)
    decreases m
  {
    Acceptable(m.value, depth)
  }

  predicate AcceptableItems(items: seq<Json>, depth: nat)
    decreases items
  {
    items == [] || (AcceptableItem(items[0], depth) && AcceptableItems(items[1..], depth))
  }

  predicate AcceptableItem(item: Json, depth: nat)
    decreases item, 6
  {
    Acceptable(item, depth)
  }

  predicate Dropped(m: Member) {
    Annotation(m.key) || (m.key == Word(Format) && !KnownFormat(m.value))
  }

  function Pruned(fields: seq<Member>): seq<Member> {
    if fields == [] then []
    else (if Dropped(fields[0]) then [] else [fields[0]]) + Pruned(fields[1..])
  }

  function Names(members: seq<Member>): seq<Json> {
    if members == [] then [] else [Str(members[0].key)] + Names(members[1..])
  }

  /** A node with properties requires them all and admits no others. */
  function Shut(fields: seq<Member>, properties: Json): seq<Member> {
    PutIf(PutIf(fields, properties.Obj?, Required, if properties.Obj? then Arr(Names(properties.fields)) else Null),
          properties.Obj?, AdditionalProperties, Bool(false))
  }

  function Normal(node: Json): Json
    decreases node, 5
  {
    if node.Obj? then Obj(Stage(node, 4)) else node
  }

  /** The fields after pruning and closing the node and visiting its first k slots. */
  function Stage(node: Json, k: nat): seq<Member>
    requires node.Obj? && k <= 4
    decreases node, k
  {
    if k == 0 then Shut(Pruned(node.fields), Value(node.fields, Properties))
    else
      var w := Slot(k - 1);
      var v := Value(node.fields, w);
      if HasChildren(w, v) then Put(Stage(node, k - 1), w, NormalValue(w, v)) else Stage(node, k - 1)
  }

  function NormalValue(w: Word, v: Json): Json
    decreases v, 6
  {
    if w.Items? && v.Obj? then Normal(v)
    else if w.AnyOf? && v.Arr? then Arr(NormalItems(v.items))
    else if (w.Properties? || w.Defs?) && v.Obj? then Obj(NormalMembers(v.fields))
    else v
  }

  function NormalMembers(members: seq<Member>): seq<Member>
    decreases members
  {
    if members == [] then [] else [NormalMember(members[0])] + NormalMembers(members[1..])
  }

  function NormalMember(m: Member): Member
    decreases m
  {
    Member(m.key, Normal(m.value))
  }

  function NormalItems(items: seq<Json>): seq<Json>
    decreases items
  {
    if items == [] then [] else [Normal(items[0])] + NormalItems(items[1..])
  }

  function Add(a: Totals, b: Totals): Totals {
    Totals(a.properties + b.properties, a.strings + b.strings, a.enumValues + b.enumValues)
  }

  const ZERO := Totals(0, 0, 0)

  function NameLengths(members: seq<Member>): nat {
    if members == [] then 0
    else var n := |members| - 1; NameLengths(members[..n]) + Length(members[n].key)
  }

  /** The node's own enumeration, constant, property names and definition names. */
  function Own(fields: seq<Member>): Totals {
    var e, c, p, d := Value(fields, Enum), Value(fields, Const), Value(fields, Properties), Value(fields, Defs);
    Totals(if p.Obj? then |p.fields| else 0,
           (if e.Arr? then StringLengths(e.items) else 0) + (if c.Str? then Length(c.s) else 0)
           + (if p.Obj? then NameLengths(p.fields) else 0) + (if d.Obj? then NameLengths(d.fields) else 0),
           if e.Arr? then |e.items| else 0)
  }

  function Total(node: Json): Totals
    decreases node, 5
  {
    if !node.Obj? then ZERO
    else
      Add(Add(Own(node.fields), SlotTotal(node, Properties)),
          Add(SlotTotal(node, Items), Add(SlotTotal(node, AnyOf), SlotTotal(node, Defs))))
  }

  function SlotTotal(node: Json, w: Word): Totals
    requires node.Obj?
    decreases node, 4
  {
    var v := Value(node.fields, w);
    if HasChildren(w, v) then TotalValue(w, v) else ZERO
  }

  function TotalValue(w: Word, v: Json): Totals
    requires HasChildren(w, v)
    decreases v, 6
  {
    if w.Items? then Total(v) else if w.AnyOf? then TotalItems(v.items) else TotalMembers(v.fields)
  }

  function TotalMembers(members: seq<Member>): Totals
    decreases members
  {
    if members == [] then ZERO else Add(TotalMember(members[0]), TotalMembers(members[1..]))
  }

  function TotalMember(m: Member): Totals
    decreases m
  {
    Total(m.value)
  }

  function TotalItems(items: seq<Json>): Totals
    decreases items
  {
    if items == [] then ZERO else Add(Total(items[0]), TotalItems(items[1..]))
  }

  predicate WithinLimits(t: Totals) {
    t.properties <= MAX_PROPERTIES && t.strings <= MAX_STRINGS && t.enumValues <= MAX_ENUM_VALUES
  }

  function Compile(schema: seq<Member>): Option<Json> {
    if !TypedObject(schema) || Has(schema, AnyOf) || !Acceptable(Obj(schema), 1)
       || !WithinLimits(Total(Obj(schema))) then None
    else Some(Normal(Obj(schema)))
  }

  // ---------- Dictionaries behave ----------

  predicate Same(f: seq<Member>, g: seq<Member>, w: Word) {
    Has(f, w) == Has(g, w) && Value(f, w) == Value(g, w)
  }

  lemma {:induction false} IndexIsFirst(fields: seq<Member>, key: Text, i: nat)
    requires i < |fields| && fields[i].key == key && forall j :: 0 <= j < i ==> fields[j].key != key
    ensures IndexOf(fields, key) == i
  {
    if i > 0 {
      var rest := fields[1..];
      assert forall j :: 0 <= j < i - 1 ==> rest[j] == fields[j + 1];
      IndexIsFirst(rest, key, i - 1);
    }
  }

  lemma PutIsThere(f: seq<Member>, w: Word, v: Json)
    ensures Has(Put(f, w, v), w) && Value(Put(f, w, v), w) == v
  {
    IndexIsFirst(Put(f, w, v), Word(w), IndexOf(f, Word(w)));
  }

  lemma IndexIsNone(fields: seq<Member>, key: Text)
    requires forall j :: 0 <= j < |fields| ==> fields[j].key != key
    ensures IndexOf(fields, key) == |fields|
  {}

  lemma PutKeepsOthers(f: seq<Member>, w: Word, v: Json, other: Word)
    requires other != w
    ensures Same(f, Put(f, w, v), other)
  {
    var g, k := Put(f, w, v), IndexOf(f, Word(other));
    assert forall j :: 0 <= j < |f| ==> g[j].key == f[j].key;
    if k < |f| {
      assert g[k] == f[k];
      IndexIsFirst(g, Word(other), k);
    } else {
      IndexIsNone(g, Word(other));
    }
  }

  lemma PutAgain(f: seq<Member>, w: Word, v: Json)
    requires Has(f, w) && Value(f, w) == v
    ensures Put(f, w, v) == f
  {}

  predicate Clean(fields: seq<Member>) {
    forall i :: 0 <= i < |fields| ==> SupportedKey(fields[i].key) && !Dropped(fields[i])
  }

  lemma PutKeepsClean(f: seq<Member>, w: Word, v: Json)
    requires Clean(f) && IsKeyword(w) && w != Format
    ensures Clean(Put(f, w, v))
  {}

  lemma {:induction false} CleanIsPruned(f: seq<Member>)
    requires Clean(f)
    ensures Pruned(f) == f
  {
    if f != [] { CleanIsPruned(f[1..]); }
  }

  lemma {:induction false} PrunedIsClean(f: seq<Member>)
    requires KeysOk(f)
    ensures Clean(Pruned(f))
  {
    if f != [] { PrunedIsClean(f[1..]); }
  }

  lemma HeadOrTail(f: seq<Member>, w: Word)
    requires f != []
    ensures if f[0].key == Word(w) then Has(f, w) && Value(f, w) == f[0].value else Same(f, f[1..], w)
  {}

  lemma {:induction false} PruningKeeps(f: seq<Member>, w: Word)
    requires !IsAnnotation(w) && w != Format
    ensures Same(f, Pruned(f), w)
  {
    if f != [] {
      var rest, g := f[1..], Pruned(f);
      PruningKeeps(rest, w);
      HeadOrTail(f, w);
      if Dropped(f[0]) {
        assert g == Pruned(rest);
      } else {
        assert g[0] == f[0] && g[1..] == Pruned(rest);
        HeadOrTail(g, w);
      }
    }
  }

  lemma CleanFormatIsKnown(f: seq<Member>)
    requires Clean(f)
    ensures KnownFormat(Value(f, Format))
  {}

  // ---------- What compiling does to one node ----------

  /** The words whose values compiling never touches. */
  predicate Untouched(w: Word) {
    w.Type? || w.Enum? || w.Const? || w.Ref?
  }

  predicate Closed(fields: seq<Member>, names: seq<Json>) {
    && Has(fields, Required) && Value(fields, Required) == Arr(names)
    && Has(fields, AdditionalProperties) && Value(fields, AdditionalProperties) == Bool(false)
  }

  lemma {:induction false} NormalMembersKeepNames(members: seq<Member>)
    ensures Names(NormalMembers(members)) == Names(members) && |NormalMembers(members)| == |members|
    ensures forall i :: 0 <= i < |members| ==> NormalMembers(members)[i] == NormalMember(members[i])
  {
    if members != [] { NormalMembersKeepNames(members[1..]); }
  }

  lemma {:induction false} NormalMembersKeepLengths(members: seq<Member>)
    ensures NameLengths(NormalMembers(members)) == NameLengths(members)
  {
    NormalMembersKeepNames(members);
    NameLengthsOfEqualKeys(members, NormalMembers(members));
  }

  lemma {:induction false} NameLengthsOfEqualKeys(a: seq<Member>, b: seq<Member>)
    requires |a| == |b| && forall i :: 0 <= i < |a| ==> a[i].key == b[i].key
    ensures NameLengths(a) == NameLengths(b)
  {
    if a != [] { NameLengthsOfEqualKeys(a[..|a| - 1], b[..|b| - 1]); }
  }

  lemma Puts(f: seq<Member>, b: bool, w: Word, v: Json, other: Word)
    ensures if b && other == w then Has(PutIf(f, b, w, v), w) && Value(PutIf(f, b, w, v), w) == v
            else Same(f, PutIf(f, b, w, v), other)
  {
    if b {
      if other == w { PutIsThere(f, w, v); } else { PutKeepsOthers(f, w, v, other); }
    }
  }

  lemma ShutKeeps(f: seq<Member>, p: Json, w: Word)
    requires w != Required && w != AdditionalProperties
    ensures Same(f, Shut(f, p), w)
  {
    if p.Obj? {
      PutKeepsOthers(f, Required, Arr(Names(p.fields)), w);
      PutKeepsOthers(Put(f, Required, Arr(Names(p.fields))), AdditionalProperties, Bool(false), w);
    }
  }

  lemma ShutCloses(f: seq<Member>, p: Json)
    requires p.Obj?
    ensures Closed(Shut(f, p), Names(p.fields))
  {
    var g := Put(f, Required, Arr(Names(p.fields)));
    PutIsThere(f, Required, Arr(Names(p.fields)));
    PutKeepsOthers(g, AdditionalProperties, Bool(false), Required);
    PutIsThere(g, AdditionalProperties, Bool(false));
  }

  lemma SlotsAreKeywords(k: nat)
    requires k < 4
    ensures IsSlot(Slot(k)) && IsKeyword(Slot(k)) && Slot(k) != Format && Slot(k) != Required
            && Slot(k) != AdditionalProperties
  {}

  lemma LeafValue(w: Word, v: Json)
    requires IsSlot(w) ==> !HasChildren(w, v)
    ensures NormalValue(w, v) == v
  {}

  lemma StageStep(node: Json, k: nat, w: Word)
    requires node.Obj? && 0 < k <= 4
    ensures var at := Slot(k - 1); var v := Value(node.fields, at);
            if w == at && HasChildren(at, v)
            then Has(Stage(node, k), w) && Value(Stage(node, k), w) == NormalValue(at, v)
            else Same(Stage(node, k - 1), Stage(node, k), w)
  {
    var at := Slot(k - 1);
    var v := Value(node.fields, at);
    Puts(Stage(node, k - 1), HasChildren(at, v), at, NormalValue(at, v), w);
  }

  /** A word keeps its value until its slot is visited. */
  lemma {:induction false} BeforeVisit(node: Json, k: nat, w: Word)
    requires node.Obj? && k <= 4 && forall j :: 0 <= j < k ==> Slot(j) != w
    requires !IsAnnotation(w) && w != Format && w != Required && w != AdditionalProperties
    ensures Same(node.fields, Stage(node, k), w)
  {
    if k == 0 {
      PruningKeeps(node.fields, w);
      ShutKeeps(Pruned(node.fields), Value(node.fields, Properties), w);
    } else {
      BeforeVisit(node, k - 1, w);
      assert Slot(k - 1) != w;
      StageStep(node, k, w);
    }
  }

  /** And its compiled children from then on. */
  lemma JustVisited(node: Json, j: nat)
    requires node.Obj? && j < 4
    ensures Has(Stage(node, j + 1), Slot(j)) == Has(node.fields, Slot(j))
    ensures Value(Stage(node, j + 1), Slot(j)) == NormalValue(Slot(j), Value(node.fields, Slot(j)))
  {
    if HasChildren(Slot(j), Value(node.fields, Slot(j))) {
      StageStep(node, j + 1, Slot(j));
      HasWhatItHolds(node.fields, Slot(j));
    } else {
      LeafVisited(node, j);
    }
  }

  lemma LeafVisited(node: Json, j: nat)
    requires node.Obj? && j < 4 && !HasChildren(Slot(j), Value(node.fields, Slot(j)))
    ensures Same(node.fields, Stage(node, j + 1), Slot(j))
    ensures NormalValue(Slot(j), Value(node.fields, Slot(j))) == Value(node.fields, Slot(j))
  {
    SlotsAreKeywords(j);
    StageStays(node, j);
    BeforeVisit(node, j, Slot(j));
    LeafValue(Slot(j), Value(node.fields, Slot(j)));
  }

  lemma HasWhatItHolds(fields: seq<Member>, w: Word)
    requires Value(fields, w) != Null
    ensures Has(fields, w)
  {}

  lemma StageStays(node: Json, j: nat)
    requires node.Obj? && j < 4 && !HasChildren(Slot(j), Value(node.fields, Slot(j)))
    ensures Stage(node, j + 1) == Stage(node, j)
  {}

  predicate Visited(node: Json, fields: seq<Member>, j: nat)
    requires node.Obj? && j < 4
  {
    && Has(fields, Slot(j)) == Has(node.fields, Slot(j))
    && Value(fields, Slot(j)) == NormalValue(Slot(j), Value(node.fields, Slot(j)))
  }

  /** Visiting a later slot leaves an earlier one alone. */
  lemma LaterVisit(node: Json, k: nat, j: nat)
    requires node.Obj? && j + 1 < k <= 4 && Visited(node, Stage(node, k - 1), j)
    ensures Visited(node, Stage(node, k), j)
  {
    StageStep(node, k, Slot(j));
  }

  lemma {:induction false} AfterVisit(node: Json, k: nat, j: nat)
    requires node.Obj? && j < k <= 4
    ensures Visited(node, Stage(node, k), j)
  {
    if j + 1 < k {
      AfterVisit(node, k - 1, j);
      LaterVisit(node, k, j);
    } else {
      JustVisited(node, j);
    }
  }

  lemma NormalValues(node: Json, w: Word)
    requires node.Obj? && !IsAnnotation(w) && w != Format && w != Required && w != AdditionalProperties
    ensures Has(Normal(node).fields, w) == Has(node.fields, w)
    ensures Value(Normal(node).fields, w) == NormalValue(w, Value(node.fields, w))
  {
    if IsSlot(w) {
      AfterVisit(node, 4, if w.Properties? then 0 else if w.Items? then 1 else if w.AnyOf? then 2 else 3);
    } else {
      BeforeVisit(node, 4, w);
      LeafValue(w, Value(node.fields, w));
    }
  }

  /** A compiled node with properties is closed: it requires exactly them and admits no others. */
  lemma {:induction false} StageIsClosed(node: Json, k: nat)
    requires node.Obj? && k <= 4 && Value(node.fields, Properties).Obj?
    ensures Closed(Stage(node, k), Names(Value(node.fields, Properties).fields))
  {
    if k == 0 {
      ShutCloses(Pruned(node.fields), Value(node.fields, Properties));
    } else {
      StageIsClosed(node, k - 1);
      SlotsAreKeywords(k - 1);
      var v := Value(node.fields, Slot(k - 1));
      Puts(Stage(node, k - 1), HasChildren(Slot(k - 1), v), Slot(k - 1), NormalValue(Slot(k - 1), v), Required);
      Puts(Stage(node, k - 1), HasChildren(Slot(k - 1), v), Slot(k - 1), NormalValue(Slot(k - 1), v),
           AdditionalProperties);
    }
  }

  lemma ShutIsClean(node: Json)
    requires node.Obj? && KeysOk(node.fields)
    ensures Clean(Stage(node, 0))
  {
    PrunedIsClean(node.fields);
    var p, f := Value(node.fields, Properties), Pruned(node.fields);
    if p.Obj? {
      PutKeepsClean(f, Required, Arr(Names(p.fields)));
      PutKeepsClean(Put(f, Required, Arr(Names(p.fields))), AdditionalProperties, Bool(false));
    }
  }

  lemma {:induction false} StageIsClean(node: Json, k: nat)
    requires node.Obj? && k <= 4 && KeysOk(node.fields)
    ensures Clean(Stage(node, k))
  {
    if k == 0 {
      ShutIsClean(node);
    } else {
      StageIsClean(node, k - 1);
      SlotsAreKeywords(k - 1);
      PutKeepsClean(Stage(node, k - 1), Slot(k - 1), NormalValue(Slot(k - 1), Value(node.fields, Slot(k - 1))));
    }
  }

  /** Putting back what is there changes nothing, so a node whose children are compiled, that is
      clean and, if it has properties, closed, compiles to itself. */
  lemma {:induction false} StageIsStable(node: Json, k: nat)
    requires node.Obj? && k <= 4 && Clean(node.fields)
    requires var p := Value(node.fields, Properties); p.Obj? ==> Closed(node.fields, Names(p.fields))
    requires forall w :: IsSlot(w) ==> NormalValue(w, Value(node.fields, w)) == Value(node.fields, w)
    ensures Stage(node, k) == node.fields
  {
    var f := node.fields;
    if k == 0 {
      CleanIsPruned(f);
      var p := Value(f, Properties);
      if p.Obj? {
        PutAgain(f, Required, Arr(Names(p.fields)));
        PutAgain(f, AdditionalProperties, Bool(false));
      }
    } else {
      StageIsStable(node, k - 1);
      SlotsAreKeywords(k - 1);
      if Has(f, Slot(k - 1)) { PutAgain(f, Slot(k - 1), Value(f, Slot(k - 1))); }
    }
  }

  // ---------- The counters are totals over all nodes ----------

  datatype Edge = ToProperty(i: nat) | ToItems | ToAlternative(i: nat) | ToDefinition(i: nat)

  function Child(node: Json, e: Edge): Option<Json> {
    if !node.Obj? then None
    else
      match e
      case ToProperty(i) => var p := Value(node.fields, Properties);
        if p.Obj? && i < |p.fields| then Some(p.fields[i].value) else None
      case ToItems => var v := Value(node.fields, Items); if v.Obj? then Some(v) else None
      case ToAlternative(i) => var a := Value(node.fields, AnyOf);
        if a.Arr? && i < |a.items| then Some(a.items[i]) else None
      case ToDefinition(i) => var d := Value(node.fields, Defs);
        if d.Obj? && i < |d.fields| then Some(d.fields[i].value) else None
  }

  /** The schema node reached from the root through properties, items, alternatives, definitions. */
  function NodeAt(node: Json, path: seq<Edge>): Option<Json>
    decreases |path|
  {
    if path == [] then Some(node)
    else var c := Child(node, path[0]); if c.Some? then NodeAt(c.value, path[1..]) else None
  }

  /** A schema node of the tree and the path that leads to it. */
  datatype Place = Place(path: seq<Edge>, node: Json)

  function EdgeTo(w: Word, i: nat): Edge
    requires IsSlot(w)
  {
    if w.Properties? then ToProperty(i) else if w.Items? then ToItems else if w.AnyOf? then ToAlternative(i)
    else ToDefinition(i)
  }

  /** Every schema node of the tree below a path, parents before children. */
  function Places(node: Json, at: seq<Edge>): seq<Place>
    decreases node, 5
  {
    if !node.Obj? then []
    else
      ([Place(at, node)] + SlotPlaces(node, Properties, at))
      + (SlotPlaces(node, Items, at) + (SlotPlaces(node, AnyOf, at) + SlotPlaces(node, Defs, at)))
  }

  function SlotPlaces(node: Json, w: Word, at: seq<Edge>): seq<Place>
    requires node.Obj? && IsSlot(w)
    decreases node, 4
  {
    var v := Value(node.fields, w);
    if HasChildren(w, v) then ValuePlaces(w, v, at) else []
  }

  function ValuePlaces(w: Word, v: Json, at: seq<Edge>): seq<Place>
    requires IsSlot(w) && HasChildren(w, v)
    decreases v, 6
  {
    if w.Items? then Places(v, at + [ToItems])
    else if w.AnyOf? then ItemPlaces(v.items, 0, at)
    else MemberPlaces(w, v.fields, 0, at)
  }

  /** The places of the i-th member and those after it. */
  function MemberPlaces(w: Word, members: seq<Member>, i: nat, at: seq<Edge>): seq<Place>
    requires IsSlot(w)
    decreases members
  {
    if members == [] then []
    else MemberPlace(members[0], at + [EdgeTo(w, i)]) + MemberPlaces(w, members[1..], i + 1, at)
  }

  function MemberPlace(m: Member, at: seq<Edge>): seq<Place>
    decreases m
  {
    Places(m.value, at)
  }

  function ItemPlaces(items: seq<Json>, i: nat, at: seq<Edge>): seq<Place>
    decreases items
  {
    if items == [] then [] else Places(items[0], at + [ToAlternative(i)]) + ItemPlaces(items[1..], i + 1, at)
  }

  lemma AddJoins(a: Totals, b: Totals, c: Totals)
    ensures Add(Add(a, b), c) == Add(a, Add(b, c))
  {}

  lemma AddZero(a: Totals)
    ensures Add(a, ZERO) == a && Add(ZERO, a) == a
  {}

  function Plus(): (Totals, Totals) -> Totals {
    (a: Totals, b: Totals) => Add(a, b)
  }

  lemma TotalsAdd()
    ensures Adds(Plus(), ZERO)
  {
    forall a: Totals, b: Totals, c: Totals ensures Associates(Plus(), a, b, c) {
      AddJoins(a, b, c);
    }
    forall a: Totals ensures Neutral(Plus(), ZERO, a) {
      AddZero(a);
    }
  }

  function OwnTotals(): Place -> Totals {
    (place: Place) => if place.node.Obj? then Own(place.node.fields) else ZERO
  }

  /** The sum of what each place's node counts of its own. */
  function OwnSum(places: seq<Place>): Totals {
    Sum(Plus(), ZERO, OwnTotals(), places)
  }

  lemma OwnSumsJoin(a: seq<Place>, b: seq<Place>)
    ensures OwnSum(a + b) == Add(OwnSum(a), OwnSum(b))
  {
    TotalsAdd();
    SumsJoin(Plus(), ZERO, OwnTotals(), a, b);
  }

  lemma OwnSumOfOne(place: Place)
    requires place.node.Obj?
    ensures OwnSum([place]) == Own(place.node.fields)
  {
    TotalsAdd();
    SumOfOne(Plus(), ZERO, OwnTotals(), place);
  }

  lemma FamilySum(place: Place, p: seq<Place>, i: seq<Place>, a: seq<Place>, d: seq<Place>)
    requires place.node.Obj?
    ensures OwnSum(([place] + p) + (i + (a + d)))
            == Add(Add(Own(place.node.fields), OwnSum(p)), Add(OwnSum(i), Add(OwnSum(a), OwnSum(d))))
  {
    OwnSumsJoin([place] + p, i + (a + d));
    OwnSumsJoin([place], p);
    OwnSumsJoin(i, a + d);
    OwnSumsJoin(a, d);
    OwnSumOfOne(place);
  }

  /** The three counters add up each node's own property names, definition names, enumeration and
      constant, over all places of the tree. */
  lemma {:induction false} TotalsSumOverAllNodes(node: Json, at: seq<Edge>)
    ensures Total(node) == OwnSum(Places(node, at))
    decreases node, 5
  {
    if node.Obj? {
      SlotTotalsSum(node, Properties, at);
      SlotTotalsSum(node, Items, at);
      SlotTotalsSum(node, AnyOf, at);
      SlotTotalsSum(node, Defs, at);
      FamilySum(Place(at, node), SlotPlaces(node, Properties, at), SlotPlaces(node, Items, at),
                SlotPlaces(node, AnyOf, at), SlotPlaces(node, Defs, at));
    }
  }

  lemma {:induction false} SlotTotalsSum(node: Json, w: Word, at: seq<Edge>)
    requires node.Obj? && IsSlot(w)
    ensures SlotTotal(node, w) == OwnSum(SlotPlaces(node, w, at))
    decreases node, 4
  {
    var v := Value(node.fields, w);
    if HasChildren(w, v) { ValueTotalsSum(w, v, at); }
  }

  lemma {:induction false} ValueTotalsSum(w: Word, v: Json, at: seq<Edge>)
    requires IsSlot(w) && HasChildren(w, v)
    ensures TotalValue(w, v) == OwnSum(ValuePlaces(w, v, at))
    decreases v, 6
  {
    if w.Items? { TotalsSumOverAllNodes(v, at + [ToItems]); }
    else if w.AnyOf? { ItemTotalsSum(v.items, 0, at); }
    else { MemberTotalsSum(w, v.fields, 0, at); }
  }

  lemma {:induction false} MemberTotalsSum(w: Word, members: seq<Member>, i: nat, at: seq<Edge>)
    requires IsSlot(w)
    ensures TotalMembers(members) == OwnSum(MemberPlaces(w, members, i, at))
    decreases members
  {
    if members != [] {
      OneMemberSums(members[0], at + [EdgeTo(w, i)]);
      MemberTotalsSum(w, members[1..], i + 1, at);
      OwnSumsJoin(MemberPlace(members[0], at + [EdgeTo(w, i)]), MemberPlaces(w, members[1..], i + 1, at));
    }
  }

  lemma {:induction false} OneMemberSums(m: Member, at: seq<Edge>)
    ensures TotalMember(m) == OwnSum(MemberPlace(m, at))
    decreases m
  {
    TotalsSumOverAllNodes(m.value, at);
  }

  lemma {:induction false} ItemTotalsSum(items: seq<Json>, i: nat, at: seq<Edge>)
    ensures TotalItems(items) == OwnSum(ItemPlaces(items, i, at))
    decreases items
  {
    if items != [] {
      TotalsSumOverAllNodes(items[0], at + [ToAlternative(i)]);
      ItemTotalsSum(items[1..], i + 1, at);
      OwnSumsJoin(Places(items[0], at + [ToAlternative(i)]), ItemPlaces(items[1..], i + 1, at));
    }
  }

  // ---------- Each node is at one place ----------

  predicate Starts(at: seq<Edge>, path: seq<Edge>) {
    |at| <= |path| && path[..|at|] == at
  }

  /** The node of a place is what its path reaches from here. */
  predicate Reached(node: Json, at: seq<Edge>, place: Place) {
    Starts(at, place.path) && NodeAt(node, place.path[|at|..]) == Some(place.node) && place.node.Obj?
  }

  function SlotOf(e: Edge): Word {
    match e
    case ToProperty(_) => Properties
    case ToItems => Items
    case ToAlternative(_) => AnyOf
    case ToDefinition(_) => Defs
  }

  /** The path goes on from here by an edge of this kind. */
  predicate GoesBy(w: Word, at: seq<Edge>, path: seq<Edge>) {
    |at| < |path| && path[..|at|] == at && SlotOf(path[|at|]) == w
  }

  predicate ReachedBy(node: Json, w: Word, at: seq<Edge>, place: Place) {
    && GoesBy(w, at, place.path)
    && var child := Child(node, place.path[|at|]);
    child.Some? && Reached(child.value, place.path[..|at| + 1], place)
  }

  predicate ReachedInMembers(w: Word, members: seq<Member>, i: nat, at: seq<Edge>, place: Place) {
    && (w.Properties? || w.Defs?) && GoesBy(w, at, place.path)
    && i <= place.path[|at|].i < i + |members|
    && Reached(members[place.path[|at|].i - i].value, place.path[..|at| + 1], place)
  }

  predicate ReachedInItems(items: seq<Json>, i: nat, at: seq<Edge>, place: Place) {
    && GoesBy(AnyOf, at, place.path)
    && i <= place.path[|at|].i < i + |items|
    && Reached(items[place.path[|at|].i - i], place.path[..|at| + 1], place)
  }

  lemma NextStep(at: seq<Edge>, e: Edge, path: seq<Edge>)
    ensures Starts(at + [e], path) <==> Starts(at, path) && |at| < |path| && path[|at|] == e
    ensures Starts(at + [e], path) ==> path[..|at| + 1] == at + [e]
  {
    if Starts(at + [e], path) {
      assert path[..|at|] == path[..|at| + 1][..|at|];
      assert path[..|at| + 1][|at|] == e;
    }
    if Starts(at, path) && |at| < |path| && path[|at|] == e {
      assert path[..|at| + 1] == at + [e];
    }
  }

  /** A place is reached at once, or through the edge its path takes next. */
  lemma ReachedSplits(node: Json, at: seq<Edge>, place: Place)
    requires node.Obj?
    ensures Reached(node, at, place) <==>
            place == Place(at, node)
            || (Starts(at, place.path) && |at| < |place.path| && ReachedBy(node, SlotOf(place.path[|at|]), at, place))
  {
    if Starts(at, place.path) {
      var rest := place.path[|at|..];
      if rest == [] {
        assert place.path == at;
      } else {
        assert rest[0] == place.path[|at|] && rest[1..] == place.path[|at| + 1..];
        assert place.path[..|at| + 1][..|at| + 1] == place.path[..|at| + 1];
      }
    }
  }

  /** Each schema node appears once, at the path that reaches it, and nothing else appears. */
  lemma {:induction false} EachNodeIsCountedOnce(node: Json, at: seq<Edge>, place: Place)
    ensures multiset(Places(node, at))[place] == Once(Reached(node, at, place))
    decreases node, 5
  {
    if node.Obj? {
      SlotIsCountedOnce(node, Properties, at, place);
      SlotIsCountedOnce(node, Items, at, place);
      SlotIsCountedOnce(node, AnyOf, at, place);
      SlotIsCountedOnce(node, Defs, at, place);
      ReachedSplits(node, at, place);
      FamilyCounts(Place(at, node), SlotPlaces(node, Properties, at), SlotPlaces(node, Items, at),
                   SlotPlaces(node, AnyOf, at), SlotPlaces(node, Defs, at), place);
    } else {
      assert NodeAt(node, []) == Some(node) && forall path :: path != [] ==> NodeAt(node, path) == None;
    }
  }

  lemma FamilyCounts<T>(first: T, p: seq<T>, i: seq<T>, a: seq<T>, d: seq<T>, x: T)
    ensures multiset(([first] + p) + (i + (a + d)))[x]
            == Once(x == first) + multiset(p)[x] + multiset(i)[x] + multiset(a)[x] + multiset(d)[x]
  {}

  lemma {:induction false} SlotIsCountedOnce(node: Json, w: Word, at: seq<Edge>, place: Place)
    requires node.Obj? && IsSlot(w)
    ensures multiset(SlotPlaces(node, w, at))[place] == Once(ReachedBy(node, w, at, place))
    decreases node, 4
  {
    var v := Value(node.fields, w);
    if HasChildren(w, v) { ValueIsCountedOnce(node, w, v, at, place); }
  }

  lemma ReachedThroughMembers(node: Json, w: Word, members: seq<Member>, at: seq<Edge>, place: Place)
    requires node.Obj? && (w.Properties? || w.Defs?) && Value(node.fields, w) == Obj(members)
    ensures ReachedBy(node, w, at, place) == ReachedInMembers(w, members, 0, at, place)
  {}

  lemma ReachedThroughItems(node: Json, items: seq<Json>, at: seq<Edge>, place: Place)
    requires node.Obj? && Value(node.fields, AnyOf) == Arr(items)
    ensures ReachedBy(node, AnyOf, at, place) == ReachedInItems(items, 0, at, place)
  {}

  lemma ReachedAsItems(node: Json, v: Json, at: seq<Edge>, place: Place)
    requires node.Obj? && v.Obj? && Value(node.fields, Items) == v
    ensures ReachedBy(node, Items, at, place) == Reached(v, at + [ToItems], place)
  {
    NextStep(at, ToItems, place.path);
  }

  lemma {:induction false} ValueIsCountedOnce(node: Json, w: Word, v: Json, at: seq<Edge>, place: Place)
    requires node.Obj? && IsSlot(w) && v == Value(node.fields, w) && HasChildren(w, v)
    ensures multiset(ValuePlaces(w, v, at))[place] == Once(ReachedBy(node, w, at, place))
    decreases v, 6
  {
    if w.Items? {
      EachNodeIsCountedOnce(v, at + [ToItems], place);
      ReachedAsItems(node, v, at, place);
    } else if w.AnyOf? {
      ReachedThroughItems(node, v.items, at, place);
      ItemsAreCountedOnce(v.items, 0, at, place);
    } else {
      ReachedThroughMembers(node, w, v.fields, at, place);
      MembersAreCountedOnce(w, v.fields, 0, at, place);
    }
  }

  lemma MembersSplit(w: Word, members: seq<Member>, i: nat, at: seq<Edge>, place: Place)
    requires (w.Properties? || w.Defs?) && members != []
    ensures Once(ReachedInMembers(w, members, i, at, place))
            == Once(Reached(members[0].value, at + [EdgeTo(w, i)], place))
               + Once(ReachedInMembers(w, members[1..], i + 1, at, place))
  {
    NextStep(at, EdgeTo(w, i), place.path);
  }

  lemma ItemsSplit(items: seq<Json>, i: nat, at: seq<Edge>, place: Place)
    requires items != []
    ensures Once(ReachedInItems(items, i, at, place))
            == Once(Reached(items[0], at + [ToAlternative(i)], place))
               + Once(ReachedInItems(items[1..], i + 1, at, place))
  {
    NextStep(at, ToAlternative(i), place.path);
  }

  lemma {:induction false} MembersAreCountedOnce(w: Word, members: seq<Member>, i: nat, at: seq<Edge>, place: Place)
    requires w.Properties? || w.Defs?
    ensures multiset(MemberPlaces(w, members, i, at))[place] == Once(ReachedInMembers(w, members, i, at, place))
    decreases members
  {
    if members != [] {
      MemberIsCountedOnce(members[0], at + [EdgeTo(w, i)], place);
      MembersAreCountedOnce(w, members[1..], i + 1, at, place);
      MembersSplit(w, members, i, at, place);
    }
  }

  lemma {:induction false} MemberIsCountedOnce(m: Member, at: seq<Edge>, place: Place)
    ensures multiset(MemberPlace(m, at))[place] == Once(Reached(m.value, at, place))
    decreases m
  {
    EachNodeIsCountedOnce(m.value, at, place);
  }

  lemma {:induction false} ItemsAreCountedOnce(items: seq<Json>, i: nat, at: seq<Edge>, place: Place)
    ensures multiset(ItemPlaces(items, i, at))[place] == Once(ReachedInItems(items, i, at, place))
    decreases items
  {
    if items != [] {
      EachNodeIsCountedOnce(items[0], at + [ToAlternative(i)], place);
      ItemsAreCountedOnce(items[1..], i + 1, at, place);
      ItemsSplit(items, i, at, place);
    }
  }

  // ---------- Compiling twice ----------

  lemma {:induction false} NormalItemsKeepLength(items: seq<Json>)
    ensures |NormalItems(items)| == |items|
    ensures forall i :: 0 <= i < |items| ==> NormalItems(items)[i] == Normal(items[i])
  {
    if items != [] { NormalItemsKeepLength(items[1..]); }
  }

  /** Everything but the slots, the format and the closing keeps its value. */
  lemma Keeps(node: Json, w: Word)
    requires node.Obj? && (w.Type? || w.Enum? || w.Const? || w.Ref?)
    ensures Value(Normal(node).fields, w) == Value(node.fields, w)
  {
    NormalValues(node, w);
    LeafValue(w, Value(node.fields, w));
  }

  /** A slot keeps its shape. */
  lemma KeepsShape(node: Json, w: Word)
    requires node.Obj? && IsSlot(w)
    ensures var v, n := Value(node.fields, w), Value(Normal(node).fields, w);
            && Has(Normal(node).fields, w) == Has(node.fields, w)
            && n.Obj? == v.Obj? && n.Arr? == v.Arr? && (n == Null <==> v == Null)
            && (v.Arr? ==> |n.items| == |v.items|)
            && (v.Obj? && (w.Properties? || w.Defs?) ==> n.fields == NormalMembers(v.fields))
  {
    var v := Value(node.fields, w);
    NormalValues(node, w);
    if v.Arr? { NormalItemsKeepLength(v.items); }
  }

  lemma FormatAgain(node: Json)
    requires node.Obj? && KeysOk(node.fields)
    ensures Clean(Normal(node).fields) && KnownFormat(Value(Normal(node).fields, Format))
  {
    StageIsClean(node, 4);
    CleanFormatIsKnown(Normal(node).fields);
  }

  lemma ScalarsAgain(node: Json)
    requires node.Obj? && ScalarsOk(node.fields) && KnownFormat(Value(Normal(node).fields, Format))
    ensures ScalarsOk(Normal(node).fields)
  {
    Keeps(node, Type);
    Keeps(node, Enum);
    Keeps(node, Ref);
  }

  lemma SlotsAgain(node: Json)
    requires node.Obj? && SlotsOk(node.fields)
    ensures SlotsOk(Normal(node).fields)
  {
    Keeps(node, Type);
    KeepsShape(node, Properties);
    KeepsShape(node, Items);
    KeepsShape(node, AnyOf);
    KeepsShape(node, Defs);
  }

  lemma LocalAgain(node: Json)
    requires node.Obj? && LocalOk(node.fields)
    ensures LocalOk(Normal(node).fields)
  {
    FormatAgain(node);
    ScalarsAgain(node);
    SlotsAgain(node);
  }

  /** As many named children under the same names, or none at all. */
  predicate SameNames(f: seq<Member>, g: seq<Member>, w: Word) {
    var v, n := Value(f, w), Value(g, w);
    n.Obj? == v.Obj? && (v.Obj? ==> |n.fields| == |v.fields| && NameLengths(n.fields) == NameLengths(v.fields))
  }

  lemma NamesAgain(node: Json, w: Word)
    requires node.Obj? && (w.Properties? || w.Defs?)
    ensures SameNames(node.fields, Normal(node).fields, w)
  {
    var v := Value(node.fields, w);
    KeepsShape(node, w);
    if v.Obj? {
      NormalMembersKeepNames(v.fields);
      NormalMembersKeepLengths(v.fields);
    }
  }

  lemma OwnOfSame(f: seq<Member>, g: seq<Member>)
    requires Value(f, Enum) == Value(g, Enum) && Value(f, Const) == Value(g, Const)
    requires SameNames(f, g, Properties) && SameNames(f, g, Defs)
    ensures Own(g) == Own(f)
  {}

  lemma OwnAgain(node: Json)
    requires node.Obj?
    ensures Own(Normal(node).fields) == Own(node.fields)
  {
    Keeps(node, Enum);
    Keeps(node, Const);
    NamesAgain(node, Properties);
    NamesAgain(node, Defs);
    OwnOfSame(node.fields, Normal(node).fields);
  }

  ghost predicate SameAgain(node: Json, depth: nat) {
    Acceptable(Normal(node), depth) && Normal(Normal(node)) == Normal(node) && Total(Normal(node)) == Total(node)
  }

  lemma {:induction false} SlotAgain(node: Json, w: Word, depth: nat)
    requires node.Obj? && IsSlot(w) && SlotOk(node, w, depth)
    ensures Normal(node).Obj? && SlotOk(Normal(node), w, depth)
    ensures SlotTotal(Normal(node), w) == SlotTotal(node, w)
    ensures NormalValue(w, Value(Normal(node).fields, w)) == Value(Normal(node).fields, w)
    decreases node, 4
  {
    var v := Value(node.fields, w);
    NormalValues(node, w);
    if HasChildren(w, v) { ValueAgain(w, v, depth + 1); } else { LeafValue(w, v); }
  }

  lemma {:induction false} ValueAgain(w: Word, v: Json, depth: nat)
    requires IsSlot(w) && HasChildren(w, v) && AcceptableValue(w, v, depth)
    ensures var n := NormalValue(w, v);
            && HasChildren(w, n) && AcceptableValue(w, n, depth) && NormalValue(w, n) == n
            && TotalValue(w, n) == TotalValue(w, v)
    decreases v, 6
  {
    if w.Items? { CompilingAgain(v, depth); }
    else if w.AnyOf? { ItemsAgain(v.items, depth); }
    else { MembersAgain(v.fields, depth); }
  }

  lemma {:induction false} MembersAgain(members: seq<Member>, depth: nat)
    requires AcceptableMembers(members, depth)
    ensures var n := NormalMembers(members);
            AcceptableMembers(n, depth) && NormalMembers(n) == n && TotalMembers(n) == TotalMembers(members)
    decreases members
  {
    if members != [] {
      MemberAgain(members[0], depth);
      MembersAgain(members[1..], depth);
      assert NormalMembers(members)[1..] == NormalMembers(members[1..]);
    }
  }

  lemma {:induction false} MemberAgain(m: Member, depth: nat)
    requires AcceptableMember(m, depth)
    ensures var n := NormalMember(m);
            AcceptableMember(n, depth) && NormalMember(n) == n && TotalMember(n) == TotalMember(m)
    decreases m
  {
    CompilingAgain(m.value, depth);
  }

  lemma {:induction false} ItemsAgain(items: seq<Json>, depth: nat)
    requires AcceptableItems(items, depth)
    ensures var n := NormalItems(items);
            AcceptableItems(n, depth) && NormalItems(n) == n && TotalItems(n) == TotalItems(items)
    decreases items
  {
    if items != [] {
      CompilingAgain(items[0], depth);
      ItemsAgain(items[1..], depth);
      assert NormalItems(items)[1..] == NormalItems(items[1..]);
    }
  }

  /** Once the children are compiled, nothing is left to change in a compiled node. */
  lemma NormalIsStable(node: Json)
    requires node.Obj? && LocalOk(node.fields)
    requires forall w :: IsSlot(w) ==> NormalValue(w, Value(Normal(node).fields, w)) == Value(Normal(node).fields, w)
    ensures Normal(Normal(node)) == Normal(node)
  {
    FormatAgain(node);
    KeepsShape(node, Properties);
    var p := Value(node.fields, Properties);
    if p.Obj? {
      StageIsClosed(node, 4);
      NormalMembersKeepNames(p.fields);
    }
    StageIsStable(Normal(node), 4);
  }

  /** A compiled node is accepted, compiles to itself, and counts the same. */
  lemma {:induction false} CompilingAgain(node: Json, depth: nat)
    requires Acceptable(node, depth)
    ensures SameAgain(node, depth)
    decreases node, 5
  {
    LocalAgain(node);
    OwnAgain(node);
    SlotAgain(node, Properties, depth);
    SlotAgain(node, Items, depth);
    SlotAgain(node, AnyOf, depth);
    SlotAgain(node, Defs, depth);
    NormalIsStable(node);
  }

  /** Compiling a compiled schema gives it back, within the same limits. */
  lemma CompilingIsIdempotent(schema: seq<Member>)
    requires Compile(schema).Some?
    ensures Compile(schema).value.Obj? && Compile(Compile(schema).value.fields) == Compile(schema)
  {
    var node := Obj(schema);
    CompilingAgain(node, 1);
    Keeps(node, Type);
    KeepsShape(node, AnyOf);
  }

  // ---------- Every node at any depth ----------

  lemma {:induction false} MembersAreAcceptable(members: seq<Member>, depth: nat, i: nat)
    requires AcceptableMembers(members, depth) && i < |members|
    ensures AcceptableMember(members[i], depth)
  {
    if i > 0 { MembersAreAcceptable(members[1..], depth, i - 1); }
  }

  lemma {:induction false} ItemsAreAcceptable(items: seq<Json>, depth: nat, i: nat)
    requires AcceptableItems(items, depth) && i < |items|
    ensures AcceptableItem(items[i], depth)
  {
    if i > 0 {
      assert items[1..][i - 1] == items[i];
      ItemsAreAcceptable(items[1..], depth, i - 1);
    }
  }

  /** What relates an edge out of a node to the same edge out of the compiled node. */
  ghost predicate FollowsCompiled(node: Json, e: Edge, depth: nat) {
    Child(Normal(node), e).Some? ==>
      Child(node, e).Some? && Child(Normal(node), e).value == Normal(Child(node, e).value)
      && Acceptable(Child(node, e).value, depth + 1)
  }

  lemma MemberIsCompiled(members: seq<Member>, i: nat, depth: nat)
    requires AcceptableMembers(members, depth)
    ensures |NormalMembers(members)| == |members|
    ensures i < |members| ==> NormalMembers(members)[i].value == Normal(members[i].value)
                              && Acceptable(members[i].value, depth)
  {
    NormalMembersKeepNames(members);
    if i < |members| { MembersAreAcceptable(members, depth, i); }
  }

  lemma PropertiesAreCompiled(node: Json, i: nat, depth: nat)
    requires node.Obj? && SlotOk(node, Properties, depth)
    ensures FollowsCompiled(node, ToProperty(i), depth)
  {
    NormalValues(node, Properties);
    var p := Value(node.fields, Properties);
    if p.Obj? { MemberIsCompiled(p.fields, i, depth + 1); }
  }

  lemma ItemsAreCompiled(node: Json, depth: nat)
    requires node.Obj? && SlotOk(node, Items, depth)
    ensures FollowsCompiled(node, ToItems, depth)
  {
    NormalValues(node, Items);
  }

  lemma AlternativesAreCompiled(node: Json, i: nat, depth: nat)
    requires node.Obj? && SlotOk(node, AnyOf, depth)
    ensures FollowsCompiled(node, ToAlternative(i), depth)
  {
    NormalValues(node, AnyOf);
    var a := Value(node.fields, AnyOf);
    if a.Arr? {
      NormalItemsKeepLength(a.items);
      if i < |a.items| { ItemsAreAcceptable(a.items, depth + 1, i); }
    }
  }

  lemma DefinitionsAreCompiled(node: Json, i: nat, depth: nat)
    requires node.Obj? && SlotOk(node, Defs, depth)
    ensures FollowsCompiled(node, ToDefinition(i), depth)
  {
    NormalValues(node, Defs);
    var d := Value(node.fields, Defs);
    if d.Obj? { MemberIsCompiled(d.fields, i, depth + 1); }
  }

  /** The children of a compiled node are the compiled children of the node. */
  lemma ChildrenAreCompiled(node: Json, e: Edge, depth: nat)
    requires Acceptable(node, depth)
    ensures FollowsCompiled(node, e, depth)
  {
    match e
    case ToProperty(i) => PropertiesAreCompiled(node, i, depth);
    case ToItems => ItemsAreCompiled(node, depth);
    case ToAlternative(i) => AlternativesAreCompiled(node, i, depth);
    case ToDefinition(i) => DefinitionsAreCompiled(node, i, depth);
  }

  /** Only supported keywords, no unsupported format, and closed if it is an object. */
  ghost predicate Strict(node: Json) {
    && node.Obj? && Clean(node.fields) && KnownFormat(Value(node.fields, Format))
    && (TypedObject(node.fields) || Value(node.fields, Properties).Obj? ==>
          Value(node.fields, Properties).Obj? && Closed(node.fields, Names(Value(node.fields, Properties).fields)))
  }

  lemma CompiledNodeIsStrict(node: Json, depth: nat)
    requires Acceptable(node, depth)
    ensures Strict(Normal(node))
  {
    FormatAgain(node);
    Keeps(node, Type);
    KeepsShape(node, Properties);
    var p := Value(node.fields, Properties);
    if p.Obj? {
      StageIsClosed(node, 4);
      NormalMembersKeepNames(p.fields);
    }
  }

  /** Every node of a compiled schema, at any depth, is strict, and none is nested deeper than ten. */
  lemma {:induction false} EveryNodeIsStrict(node: Json, depth: nat, path: seq<Edge>)
    requires Acceptable(node, depth) && NodeAt(Normal(node), path).Some?
    ensures Strict(NodeAt(Normal(node), path).value) && depth + |path| <= MAX_DEPTH
    decreases |path|
  {
    if path == [] {
      CompiledNodeIsStrict(node, depth);
    } else {
      ChildrenAreCompiled(node, path[0], depth);
      EveryNodeIsStrict(Child(node, path[0]).value, depth + 1, path[1..]);
    }
  }

  lemma CompiledSchemasAreStrict(schema: seq<Member>, path: seq<Edge>)
    requires Compile(schema).Some? && NodeAt(Compile(schema).value, path).Some?
    ensures Strict(NodeAt(Compile(schema).value, path).value) && |path| < MAX_DEPTH
    ensures WithinLimits(Total(Compile(schema).value))
  {
    EveryNodeIsStrict(Obj(schema), 1, path);
    CompilingAgain(Obj(schema), 1);
  }

  // ---------- Objects hidden in a type union ----------

  /** The type admits objects, alone or in a union. */
  predicate AdmitsObjects(fields: seq<Member>) {
    var t := Value(fields, Type);
    t == Str(Word(ObjectType)) || (t.Arr? && Str(Word(ObjectType)) in t.items)
  }

  predicate IsClosed(node: Json) {
    node.Obj? && Value(node.fields, Properties).Obj?
    && Closed(node.fields, Names(Value(node.fields, Properties).fields))
  }

  /** A node that admits objects comes out closed if and only if it lists properties; with the plain
      type "object" it must, with a union it need not. */
  lemma ClosedExactlyWithProperties(node: Json, depth: nat)
    requires Acceptable(node, depth) && AdmitsObjects(node.fields)
    ensures IsClosed(Normal(node)) <==> Value(node.fields, Properties).Obj?
    ensures TypedObject(node.fields) ==> IsClosed(Normal(node))
  {
    CompiledNodeIsStrict(node, depth);
    KeepsShape(node, Properties);
    Keeps(node, Type);
  }

  /** The fields hold a type, perhaps properties, and nothing else the compiler looks at. */
  predicate Plain(fields: seq<Member>, t: Json, p: Json) {
    && KeysOk(fields) && Value(fields, Type) == t && Value(fields, Properties) == p
    && Value(fields, Format) == Null && Value(fields, Enum) == Null && Value(fields, Ref) == Null
    && Value(fields, Const) == Null && Value(fields, Defs) == Null
    && !Has(fields, Items) && !Has(fields, AnyOf)
  }

  lemma OtherWord(fields: seq<Member>, w: Word)
    requires forall j :: 0 <= j < |fields| ==> fields[j].key != Word(w)
    ensures Value(fields, w) == Null && !Has(fields, w)
  {
    IndexIsNone(fields, Word(w));
  }

  lemma OtherWords(fields: seq<Member>)
    requires forall j :: 0 <= j < |fields| ==> fields[j].key == Word(Type) || fields[j].key == Word(Properties)
    ensures Plain(fields, Value(fields, Type), Value(fields, Properties))
  {
    OtherWord(fields, Format);
    OtherWord(fields, Enum);
    OtherWord(fields, Ref);
    OtherWord(fields, Const);
    OtherWord(fields, Defs);
    OtherWord(fields, Items);
    OtherWord(fields, AnyOf);
  }

  lemma TypeAlone(fields: seq<Member>, t: Json)
    requires fields == [Member(Word(Type), t)]
    ensures Plain(fields, t, Null)
  {
    IndexIsFirst(fields, Word(Type), 0);
    OtherWord(fields, Properties);
    OtherWords(fields);
  }

  lemma TypeAndProperties(fields: seq<Member>, t: Json, p: Json)
    requires fields == [Member(Word(Type), t), Member(Word(Properties), p)]
    ensures Plain(fields, t, p)
  {
    IndexIsFirst(fields, Word(Type), 0);
    IndexIsFirst(fields, Word(Properties), 1);
    OtherWords(fields);
  }

  lemma PlainIsLocalOk(fields: seq<Member>, t: Json, p: Json)
    requires Plain(fields, t, p) && TypeOk(t) && t != Str(Word(ArrayType)) && (t == Str(Word(ObjectType)) ==> p.Obj?)
    ensures LocalOk(fields)
  {
    assert ScalarsOk(fields) && SlotsOk(fields);
  }

  lemma EmptySlot(node: Json, w: Word, depth: nat)
    requires node.Obj? && Value(node.fields, w) == Null
    ensures SlotOk(node, w, depth) && SlotTotal(node, w) == ZERO
  {}

  lemma PropertiesSlot(node: Json, p: Json, depth: nat)
    requires node.Obj? && Value(node.fields, Properties) == p
    requires p.Obj? ==> AcceptableMembers(p.fields, depth + 1) && TotalMembers(p.fields) == ZERO
    ensures SlotOk(node, Properties, depth) && SlotTotal(node, Properties) == ZERO
  {
    if p.Obj? {
      assert AcceptableValue(Properties, p, depth + 1) && TotalValue(Properties, p) == ZERO;
    }
  }

  lemma SlotsMakeAcceptable(node: Json, depth: nat)
    requires node.Obj? && depth <= MAX_DEPTH && LocalOk(node.fields)
    requires SlotOk(node, Properties, depth) && SlotOk(node, Items, depth)
    requires SlotOk(node, AnyOf, depth) && SlotOk(node, Defs, depth)
    ensures Acceptable(node, depth)
  {}

  lemma SlotsMakeTotal(node: Json, own: Totals)
    requires node.Obj? && Own(node.fields) == own && SlotTotal(node, Properties) == ZERO
    requires SlotTotal(node, Items) == ZERO && SlotTotal(node, AnyOf) == ZERO && SlotTotal(node, Defs) == ZERO
    ensures Total(node) == own
  {
    AddZero(ZERO);
    AddZero(own);
  }

  function OwnOfPlain(p: Json): Totals {
    if p.Obj? then Totals(|p.fields|, NameLengths(p.fields), 0) else ZERO
  }

  lemma PlainOwn(fields: seq<Member>, t: Json, p: Json)
    requires Plain(fields, t, p)
    ensures Own(fields) == OwnOfPlain(p)
  {}

  /** A node with a type and perhaps properties is accepted, and counts their names. */
  lemma PlainNodeCompiles(node: Json, t: Json, p: Json, depth: nat)
    requires node.Obj? && depth <= MAX_DEPTH && Plain(node.fields, t, p)
    requires TypeOk(t) && t != Str(Word(ArrayType)) && (t == Str(Word(ObjectType)) ==> p.Obj?)
    requires p.Obj? ==> AcceptableMembers(p.fields, depth + 1) && TotalMembers(p.fields) == ZERO
    ensures Acceptable(node, depth) && Total(node) == OwnOfPlain(p)
  {
    PlainIsLocalOk(node.fields, t, p);
    PlainOwn(node.fields, t, p);
    PropertiesSlot(node, p, depth);
    EmptySlot(node, Items, depth);
    EmptySlot(node, AnyOf, depth);
    EmptySlot(node, Defs, depth);
    SlotsMakeAcceptable(node, depth);
    SlotsMakeTotal(node, OwnOfPlain(p));
  }

  lemma OneMemberAccepted(members: seq<Member>, depth: nat)
    requires |members| == 1 && Acceptable(members[0].value, depth)
    ensures AcceptableMembers(members, depth)
  {
    assert AcceptableMember(members[0], depth) && members[1..] == [];
  }

  lemma OneMemberCounted(members: seq<Member>, t: Totals)
    requires |members| == 1 && Total(members[0].value) == t
    ensures TotalMembers(members) == t
  {
    assert TotalMember(members[0]) == t && members[1..] == [];
    AddZero(t);
  }

  lemma OneName(members: seq<Member>)
    requires |members| == 1
    ensures NameLengths(members) == Length(members[0].key)
  {
    assert members[..0] == [];
  }

  lemma PropertyOfCompiled(fields: seq<Member>, p: Json)
    requires Value(fields, Properties) == p && p.Obj? && |p.fields| == 1
    ensures NodeAt(Normal(Obj(fields)), [ToProperty(0)]) == Some(Normal(p.fields[0].value))
  {
    NormalValues(Obj(fields), Properties);
    NormalMembersKeepNames(p.fields);
    assert [ToProperty(0)][1..] == [];
    assert Child(Normal(Obj(fields)), ToProperty(0)) == Some(Normal(p.fields[0].value));
  }

  /** A union of types with "object" among them. */
  predicate ObjectUnion(t: Json) {
    t.Arr? && TypeOk(t) && Str(Word(ObjectType)) in t.items
  }

  lemma LoneUnionStaysOpen(node: Json, t: Json, depth: nat)
    requires node == Obj([Member(Word(Type), t)]) && ObjectUnion(t) && depth <= MAX_DEPTH
    ensures Acceptable(node, depth) && Total(node) == ZERO
    ensures Normal(node).Obj? && AdmitsObjects(Normal(node).fields) && !IsClosed(Normal(node))
  {
    TypeAlone(node.fields, t);
    PlainNodeCompiles(node, t, Null, depth);
    ClosedExactlyWithProperties(node, depth);
    Keeps(node, Type);
  }

  /** A plain object schema with one property. */
  function WithProperty(name: Text, value: Json): seq<Member> {
    [Member(Word(Type), Str(Word(ObjectType))), Member(Word(Properties), Obj([Member(name, value)]))]
  }

  /** The schema compiles, and the node at this place of it comes out open though it admits objects. */
  predicate OpenInside(schema: seq<Member>, path: seq<Edge>) {
    && Compile(schema).Some?
    && var open := NodeAt(Compile(schema).value, path);
    open.Some? && open.value.Obj? && AdmitsObjects(open.value.fields) && !IsClosed(open.value)
  }

  lemma AcceptedIsOpenInside(schema: seq<Member>, t: Totals, depth: nat, n: Json, path: seq<Edge>, open: Json)
    requires TypedObject(schema) && !Has(schema, AnyOf) && depth == 1 && Acceptable(Obj(schema), depth)
    requires Total(Obj(schema)) == t && WithinLimits(t) && n == Normal(Obj(schema)) && NodeAt(n, path) == Some(open)
    requires open.Obj? && AdmitsObjects(open.fields) && !IsClosed(open)
    ensures OpenInside(schema, path)
  {
    assert Compile(schema) == Some(n);
  }

  /** A property with such a union for its type and no properties of its own stays open, in a schema
      that compiles. */
  lemma UnionsCanStayOpen(name: Text, t: Json, value: Json, fields: seq<Member>, depth: nat)
    requires ObjectUnion(t) && Length(name) <= MAX_STRINGS && depth == 1
    requires value == Obj([Member(Word(Type), t)]) && fields == WithProperty(name, value)
    ensures OpenInside(fields, [ToProperty(0)])
  {
    var p := Obj([Member(name, value)]);
    LoneUnionStaysOpen(value, t, depth + 1);
    TypeAndProperties(fields, Str(Word(ObjectType)), p);
    OneMemberAccepted(p.fields, depth + 1);
    OneMemberCounted(p.fields, ZERO);
    OneName(p.fields);
    PlainNodeCompiles(Obj(fields), Str(Word(ObjectType)), p, depth);
    PropertyOfCompiled(fields, p);
    AcceptedIsOpenInside(fields, OwnOfPlain(p), depth, Normal(Obj(fields)), [ToProperty(0)], Normal(value));
  }

  lemma SlotsAddUp(c: Totals, own: Totals, p: Totals, i: Totals, a: Totals, d: Totals)
    ensures Add(Add(Add(Add(Add(c, own), p), i), a), d) == Add(c, Add(Add(own, p), Add(i, Add(a, d))))
  {}

  // ---------- The compiler as it runs ----------

  lemma PruneStep(fields: seq<Member>, i: nat, kept: seq<Member>)
    requires i < |fields|
    ensures var next := if Dropped(fields[i]) then kept else kept + [fields[i]];
            kept + Pruned(fields[i..]) == next + Pruned(fields[i + 1..])
  {
    assert fields[i..][1..] == fields[i + 1..];
  }

  class Compiler {
    var properties: nat
    var strings: nat
    var enumValues: nat

    constructor ()
      ensures Counted() == ZERO
    {
      properties, strings, enumValues := 0, 0, 0;
    }

    function Counted(): Totals
      reads this
    {
      Totals(properties, strings, enumValues)
    }

    method Prune(fields: seq<Member>) returns (kept: seq<Member>)
      ensures kept == Pruned(fields)
    {
      kept := [];
      var i := 0;
      while i < |fields|
        invariant 0 <= i <= |fields|
        invariant kept + Pruned(fields[i..]) == Pruned(fields)
      {
        PruneStep(fields, i, kept);
        if !Dropped(fields[i]) { kept := kept + [fields[i]]; }
        i := i + 1;
      }
    }

    method VisitMembers(members: seq<Member>, depth: nat) returns (compiled: Option<seq<Member>>)
      modifies this
      ensures compiled.Some? == AcceptableMembers(members, depth)
      ensures compiled.Some? ==> compiled.value == NormalMembers(members)
                                 && Counted() == Add(old(Counted()), TotalMembers(members))
      decreases members
    {
      if members == [] {
        return Some([]);
      }
      var first := VisitMember(members[0], depth);
      if first.None? {
        return None;
      }
      var rest := VisitMembers(members[1..], depth);
      AddJoins(old(Counted()), TotalMember(members[0]), TotalMembers(members[1..]));
      compiled := if rest.None? then None else Some([first.value] + rest.value);
    }

    method VisitMember(m: Member, depth: nat) returns (compiled: Option<Member>)
      modifies this
      ensures compiled.Some? == AcceptableMember(m, depth)
      ensures compiled.Some? ==> compiled.value == NormalMember(m) && Counted() == Add(old(Counted()), TotalMember(m))
      decreases m
    {
      var value := Visit(m.value, depth);
      compiled := if value.None? then None else Some(Member(m.key, value.value));
    }

    method VisitItems(items: seq<Json>, depth: nat) returns (compiled: Option<seq<Json>>)
      modifies this
      ensures compiled.Some? == AcceptableItems(items, depth)
      ensures compiled.Some? ==> compiled.value == NormalItems(items)
                                 && Counted() == Add(old(Counted()), TotalItems(items))
      decreases items
    {
      if items == [] {
        return Some([]);
      }
      var first := Visit(items[0], depth);
      if first.None? {
        return None;
      }
      var rest := VisitItems(items[1..], depth);
      AddJoins(old(Counted()), Total(items[0]), TotalItems(items[1..]));
      compiled := if rest.None? then None else Some([first.value] + rest.value);
    }

    method CountOwn(fields: seq<Member>)
      modifies this
      ensures Counted() == Add(old(Counted()), Own(fields))
    {
      var e, c, p, d := Value(fields, Enum), Value(fields, Const), Value(fields, Properties), Value(fields, Defs);
      if e.Arr? {
        enumValues := enumValues + |e.items|;
        strings := strings + StringLengths(e.items);
      }
      if c.Str? {
        strings := strings + Length(c.s);
      }
      if p.Obj? {
        properties := properties + |p.fields|;
        strings := strings + NameLengths(p.fields);
      }
      if d.Obj? {
        strings := strings + NameLengths(d.fields);
      }
    }

    /** Visits the children under one word, and puts them back compiled. */
    method VisitSlot(node: Json, fields: seq<Member>, k: nat, depth: nat) returns (after: Option<seq<Member>>)
      requires node.Obj? && k < 4 && fields == Stage(node, k)
      modifies this
      ensures after.Some? == SlotOk(node, Slot(k), depth)
      ensures after.Some? ==> after.value == Stage(node, k + 1)
                              && Counted() == Add(old(Counted()), SlotTotal(node, Slot(k)))
      decreases node, 4
    {
      var w := Slot(k);
      var v := Value(node.fields, w);
      after := Some(fields);
      if w == Items {
        if v.Obj? {
          var item := Visit(v, depth + 1);
          after := if item.None? then None else Some(Put(fields, w, item.value));
        }
      } else if w == AnyOf {
        if v.Arr? {
          var items := VisitItems(v.items, depth + 1);
          after := if items.None? then None else Some(Put(fields, w, Arr(items.value)));
        }
      } else if v.Obj? {
        var members := VisitMembers(v.fields, depth + 1);
        after := if members.None? then None else Some(Put(fields, w, Obj(members.value)));
      }
    }

    /** Checks, prunes and closes a node, counts it, and visits its children in order. */
    method Visit(node: Json, depth: nat) returns (compiled: Option<Json>)
      modifies this
      ensures compiled.Some? == Acceptable(node, depth)
      ensures compiled.Some? ==> compiled.value == Normal(node) && Counted() == Add(old(Counted()), Total(node))
      decreases node, 5
    {
      if !node.Obj? || depth > MAX_DEPTH || !LocalOk(node.fields) {
        return None;
      }
      var fields := Prune(node.fields);
      CountOwn(node.fields);
      fields := Shut(fields, Value(node.fields, Properties));
      var s1 := VisitSlot(node, fields, 0, depth);
      if s1.None? { return None; }
      var s2 := VisitSlot(node, s1.value, 1, depth);
      if s2.None? { return None; }
      var s3 := VisitSlot(node, s2.value, 2, depth);
      if s3.None? { return None; }
      var s4 := VisitSlot(node, s3.value, 3, depth);
      if s4.None? { return None; }
      SlotsAddUp(old(Counted()), Own(node.fields), SlotTotal(node, Slot(0)), SlotTotal(node, Slot(1)),
                 SlotTotal(node, Slot(2)), SlotTotal(node, Slot(3)));
      compiled := Some(Obj(s4.value));
    }
  }

  lemma CompileDecides(schema: seq<Member>, node: Json, depth: nat)
    requires node == Obj(schema) && depth == 1
    ensures Compile(schema) ==
            if TypedObject(schema) && !Has(schema, AnyOf) && Acceptable(node, depth) && WithinLimits(Total(node))
            then Some(Normal(node)) else None
  {}

  lemma CountedFromZero(t: Totals)
    ensures Add(ZERO, t) == t
  {}

  method CompileSchema(schema: seq<Member>) returns (compiled: Option<Json>)
    ensures compiled == Compile(schema)
  {
    if !TypedObject(schema) || Has(schema, AnyOf) {
      return None;
    }
    var compiler := new Compiler();
    var node, depth := Obj(schema), 1;
    compiled := compiler.Visit(node, depth);
    CompileDecides(schema, node, depth);
    CountedFromZero(Total(node));
    if compiler.properties > MAX_PROPERTIES || compiler.strings > MAX_STRINGS || compiler.enumValues > MAX_ENUM_VALUES {
      compiled := None;
    }
  }
}
