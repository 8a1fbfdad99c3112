/** JSON payloads of review options and job snapshots, and the user's corrections to them. */
module Payloads {
  import opened Wrappers

  datatype Json =
    | Null
    | Flag(flag: bool)
    | Int(value: int)
    | Float(number: real)
    | Text(text: string)
    | List(items: seq<Json>)
    | Object(fields: map<string, Json>)

  type Payload = map<string, Json>

  function Get(p: Payload, key: string): Json {
    if key in p then p[key] else Null
  }

  function Fields(p: Payload, key: string): Payload {
    if Get(p, key).Object? then Get(p, key).fields else map[]
  }

  // ---------- Text ----------

  const WHITE_SPACE: set<char> := {
    '\t', '\n', '\U{b}', '\U{c}', '\r', '\U{1c}', '\U{1d}', '\U{1e}', '\U{1f}', ' ',
    '\U{85}', '\U{a0}', '\U{1680}', '\U{2000}', '\U{2001}', '\U{2002}', '\U{2003}', '\U{2004}',
    '\U{2005}', '\U{2006}', '\U{2007}', '\U{2008}', '\U{2009}', '\U{200a}', '\U{2028}',
    '\U{2029}', '\U{202f}', '\U{205f}', '\U{3000}' }

  function StripLeft(s: string): (r: string)
    ensures r == [] || r[0] !in WHITE_SPACE
  {
    if s == [] || s[0] !in WHITE_SPACE then s else StripLeft(s[1..])
  }

  function StripRight(s: string): (r: string)
    ensures r <= s
    ensures r == [] || r[|r| - 1] !in WHITE_SPACE
  {
    if s == [] || s[|s| - 1] !in WHITE_SPACE then s else StripRight(s[..|s| - 1])
  }

  function Strip(s: string): (r: string)
    ensures r == [] || (r[0] !in WHITE_SPACE && r[|r| - 1] !in WHITE_SPACE)
  {
    StripRight(StripLeft(s))
  }

  function NonemptyString(value: Json): Option<string> {
    if value.Text? && Strip(value.text) != [] then Some(Strip(value.text)) else None
  }

  // ---------- Corrections ----------

  /** What a correction may hold for one field: null, text, a number, or a stray boolean. */
  datatype Entry = Cleared | Words(words: string) | Year(year: int) | Truth(truth: bool)

  type Correction = map<string, Entry>

  const CORRECTABLE_FIELDS := {"artist", "title", "album", "year"}

  predicate ValidEntry(key: string, e: Entry) {
    match e
    case Cleared => true
    case Words(w) => key != "year" && 0 < |Strip(w)| <= 300
    case Year(y) => key == "year" && 1000 <= y <= 2999
    case Truth(_) => false
  }

  predicate ValidCorrection(c: Correction) {
    c.Keys <= CORRECTABLE_FIELDS && forall key :: key in c ==> ValidEntry(key, c[key])
  }

  function NormalEntry(e: Entry): Entry {
    if e.Words? then Words(Strip(e.words)) else e
  }

  function NormalCorrection(c: Correction): Correction {
    map key | key in c :: NormalEntry(c[key])
  }

  /** None when the source raises a conflict; otherwise the optional normalised correction. */
  function Normalize(c: Option<Correction>): Option<Option<Correction>> {
    if c.None? then Some(None)
    else if ValidCorrection(c.value) then Some(Some(NormalCorrection(c.value)))
    else None
  }

  lemma StripIsIdempotent(s: string)
    ensures Strip(Strip(s)) == Strip(s)
  {
  }

  lemma NormalizeIsIdempotent(c: Option<Correction>)
    requires Normalize(c).Some?
    ensures Normalize(Normalize(c).value) == Normalize(c)
  {
    if c.Some? {
      var n := NormalCorrection(c.value);
      forall key | key in n ensures ValidEntry(key, n[key]) && NormalEntry(n[key]) == n[key] {
        assert ValidEntry(key, c.value[key]);
        if c.value[key].Words? {
          StripIsIdempotent(c.value[key].words);
        }
      }
      assert NormalCorrection(n) == n;
    }
  }

  /** The value a non-null entry leaves in a payload. */
  function EntryJson(e: Entry): Json {
    match e
    case Cleared => Null
    case Words(w) => Text(w)
    case Year(y) => Int(y)
    case Truth(b) => Flag(b)
  }

  /** One field of a correction, written over an option's payload. */
  function CorrectField(target: Payload, c: Correction, key: string): Payload {
    if key !in c then target
    else if c[key].Cleared? then
      if key == "album" || key == "year" then target[key := Null] else target
    else
      var written := target[key := EntryJson(c[key])];
      if key == "artist" then written["artists" := List([EntryJson(c[key])])] else written
  }

  function CorrectPayload(target: Payload, c: Option<Correction>): Payload {
    if c.None? then target
    else
      CorrectField(CorrectField(CorrectField(CorrectField(
        target, c.value, "album"), c.value, "artist"), c.value, "title"), c.value, "year")
  }

  function AlbumConstraint(snapshot: Payload, explicit: bool): Payload {
    var constraints := Fields(Fields(snapshot, "metadata_provenance"), "user_constraints")[
      "album_constraint_explicit" := Flag(explicit)][
      "requested_album" := if explicit then Get(snapshot, "album") else Null];
    var provenance := Fields(snapshot, "metadata_provenance")["user_constraints" := Object(constraints)];
    snapshot["metadata_provenance" := Object(provenance)]
  }

  /** One field of a correction, written over the job's approved snapshot. */
  function ApproveField(snapshot: Payload, c: Correction, key: string): Payload {
    var written := CorrectField(snapshot, c, key);
    if key == "album" && key in c then AlbumConstraint(written, !c[key].Cleared?) else written
  }

  function ApproveCorrection(snapshot: Payload, c: Option<Correction>): Payload {
    if c.None? then snapshot
    else
      ApproveField(ApproveField(ApproveField(ApproveField(
        snapshot, c.value, "album"), c.value, "artist"), c.value, "title"), c.value, "year")
  }

  lemma FieldsAreApart(target: Payload, c: Correction, field: string, key: string)
    requires key in CORRECTABLE_FIELDS && field in CORRECTABLE_FIELDS && key != field
    ensures Get(CorrectField(target, c, field), key) == Get(target, key)
    ensures Get(ApproveField(target, c, field), key) == Get(target, key)
  {
  }

  /** Every field the user filled in ends up in the corrected payload and in the corrected
      snapshot; a cleared album or year ends up null in both. */
  lemma CorrectionWins(target: Payload, snapshot: Payload, c: Correction, key: string)
    requires ValidCorrection(c) && key in c
    requires !c[key].Cleared? || key == "album" || key == "year"
    ensures Get(CorrectPayload(target, Some(c)), key) == EntryJson(c[key])
    ensures Get(ApproveCorrection(snapshot, Some(c)), key) == EntryJson(c[key])
  {
    var t1, s1 := CorrectField(target, c, "album"), ApproveField(snapshot, c, "album");
    var t2, s2 := CorrectField(t1, c, "artist"), ApproveField(s1, c, "artist");
    var t3, s3 := CorrectField(t2, c, "title"), ApproveField(s2, c, "title");
    if key != "year" {
      FieldsAreApart(t3, c, "year", key);
      FieldsAreApart(s3, c, "year", key);
      if key != "title" {
        FieldsAreApart(t2, c, "title", key);
        FieldsAreApart(s2, c, "title", key);
        if key != "artist" {
          FieldsAreApart(t1, c, "artist", key);
          FieldsAreApart(s1, c, "artist", key);
        }
      }
    }
  }

  /** One field of a correction leaves the others, and itself if it clears no album or year. */
  lemma FieldLeaves(target: Payload, c: Correction, field: string, key: string)
    requires key != "artists" && (key == field && key in c ==> c[key].Cleared? && key != "album" && key != "year")
    ensures Get(CorrectField(target, c, field), key) == Get(target, key)
  {}

  /** Fields the correction does not fill keep the value they had. */
  lemma CorrectionKeepsOthers(target: Payload, c: Option<Correction>, key: string)
    requires key != "artists"
    requires c.Some? ==> ValidCorrection(c.value)
    requires c.None? || key !in c.value || (c.value[key].Cleared? && key != "album" && key != "year")
    ensures Get(CorrectPayload(target, c), key) == Get(target, key)
  {
    if c.Some? {
      var t1 := CorrectField(target, c.value, "album");
      var t2 := CorrectField(t1, c.value, "artist");
      var t3 := CorrectField(t2, c.value, "title");
      FieldLeaves(target, c.value, "album", key);
      FieldLeaves(t1, c.value, "artist", key);
      FieldLeaves(t2, c.value, "title", key);
      FieldLeaves(t3, c.value, "year", key);
    }
  }
}
