/** security/redaction.py: recursive redaction of JSON-like values.
  *
  * Regular expressions are parameters: each pattern is a search predicate and a
  * substitution.  A dictionary is the sequence of its items.
  */
module Redaction {
  import opened Markers

  datatype Json =
    | Null
    | Bool(b: bool)
    | Num(n: int)
    | Str(s: string)
    | Arr(items: seq<Json>)
    | Obj(fields: seq<Field>)

  datatype Field = Field(key: string, value: Json)

  const PLACEHOLDER := "[REDACTED]"
  const DEEP := Field("[REDACTED_DEEP]", Bool(true))
  const MAX_DEPTH := 10

  datatype Pattern = Pattern(search: string -> bool, sub: string -> string)

  datatype Rules = Rules(sensitive: string -> bool, patterns: seq<Pattern>)

  // --------------------------------------------------------------------------- strings

  predicate Matches(ps: seq<Pattern>, s: string) {
    exists k :: 0 <= k < |ps| && ps[k].search(s)
  }

  function SubAll(ps: seq<Pattern>, s: string): string {
    if |ps| == 0 then s else ps[|ps| - 1].sub(SubAll(ps[..|ps| - 1], s))
  }

  /** Substituting a pattern removes it and brings none of the others back. */
  ghost predicate Settles(ps: seq<Pattern>) {
    && (forall k, s :: 0 <= k < |ps| ==> !ps[k].search(ps[k].sub(s)))
    && (forall k, l, s :: 0 <= k < |ps| && 0 <= l < |ps| && !ps[l].search(s) ==> !ps[l].search(ps[k].sub(s)))
  }

  lemma {:induction false} SubAllSettles(all: seq<Pattern>, k: nat, s: string)
    requires Settles(all) && k <= |all|
    ensures forall l :: 0 <= l < k ==> !all[l].search(SubAll(all[..k], s))
  {
    if k > 0 {
      SubAllSettles(all, k - 1, s);
      assert all[..k][..k - 1] == all[..k - 1];
    }
  }

  /** String redaction yields pattern-free text. */
  ghost predicate PatternFree(ps: seq<Pattern>) {
    forall s :: !Matches(ps, SubAll(ps, s))
  }

  /** Looking at each pair of patterns on its own is enough to know it. */
  lemma SettlesIsPatternFree(ps: seq<Pattern>)
    requires Settles(ps)
    ensures PatternFree(ps)
  {
    forall s
      ensures !Matches(ps, SubAll(ps, s))
    {
      SubAllSettles(ps, |ps|, s);
      assert ps[..|ps|] == ps;
    }
  }

  method RedactString(ps: seq<Pattern>, value: string) returns (result: string)
    ensures result == SubAll(ps, value)
    ensures Settles(ps) ==> !Matches(ps, result)
  {
    result := value;
    for k := 0 to |ps|
      invariant result == SubAll(ps[..k], value)
    {
      result := ps[k].sub(result);
      assert ps[..k + 1][..k] == ps[..k];
    }
    assert ps[..|ps|] == ps;
    if Settles(ps) {
      SubAllSettles(ps, |ps|, value);
    }
  }

  // ---------------------------------------------------------------------- specification

  function RedactValue(r: Rules, v: Json, depth: nat): Json
    decreases v, 1
  {
    match v
    case Obj(fields) => Obj(RedactDict(r, fields, depth + 1))
    case Arr(items) => Arr(RedactItems(r, items, depth + 1))
    case Str(s) => if Matches(r.patterns, s) then Str(SubAll(r.patterns, s)) else v
    case _ => v
  }

  /** redact_dict; a nested value is handled one level further down. */
  function RedactDict(r: Rules, fields: seq<Field>, depth: nat): seq<Field>
    decreases fields, 1
  {
    if depth > MAX_DEPTH then [DEEP] else RedactFields(r, fields, depth)
  }

  function RedactFields(r: Rules, fields: seq<Field>, depth: nat): seq<Field>
    decreases fields, 0
  {
    if |fields| == 0 then []
    else
      var f := fields[0];
      [if r.sensitive(f.key) then Field(f.key, Str(PLACEHOLDER)) else Field(f.key, RedactValue(r, f.value, depth))]
      + RedactFields(r, fields[1..], depth)
  }

  /** _redact_list; lists have no depth limit of their own. */
  function RedactItems(r: Rules, items: seq<Json>, depth: nat): seq<Json>
    decreases items, 0
  {
    if |items| == 0 then [] else [RedactValue(r, items[0], depth)] + RedactItems(r, items[1..], depth)
  }

  // --------------------------------------------------------------------------- the loops

  /** The branch chain that both loops apply to a value. */
  method RedactOne(r: Rules, v: Json, depth: nat) returns (result: Json)
    ensures result == RedactValue(r, v, depth)
    decreases v, 1
  {
    match v
    case Obj(inner) =>
      var d := RedactDictLoop(r, inner, depth + 1);
      result := Obj(d);
    case Arr(items) =>
      var l := RedactListLoop(r, items, depth + 1);
      result := Arr(l);
    case Str(s) =>
      result := v;
      if Matches(r.patterns, s) {
        var t := RedactString(r.patterns, s);
        result := Str(t);
      }
    case _ =>
      result := v;
  }

  method RedactDictLoop(r: Rules, fields: seq<Field>, depth: nat) returns (result: seq<Field>)
    ensures result == RedactDict(r, fields, depth)
    decreases fields, 0
  {
    if depth > MAX_DEPTH {
      return [DEEP];
    }
    result := [];
    for i := 0 to |fields|
      invariant result + RedactFields(r, fields[i..], depth) == RedactFields(r, fields, depth)
    {
      var f := fields[i];
      var out := Field(f.key, Str(PLACEHOLDER));
      if !r.sensitive(f.key) {
        var v := RedactOne(r, f.value, depth);
        out := Field(f.key, v);
      }
      assert RedactFields(r, fields[i..], depth) == [out] + RedactFields(r, fields[i + 1..], depth) by {
        assert fields[i..][0] == f && fields[i..][1..] == fields[i + 1..];
      }
      Shift(result, out, RedactFields(r, fields[i + 1..], depth));
      result := result + [out];
    }
    assert fields[|fields|..] == [];
    assert result + [] == result;
  }

  method RedactListLoop(r: Rules, items: seq<Json>, depth: nat) returns (result: seq<Json>)
    ensures result == RedactItems(r, items, depth)
    decreases items, 0
  {
    result := [];
    for i := 0 to |items|
      invariant result + RedactItems(r, items[i..], depth) == RedactItems(r, items, depth)
    {
      var out := RedactOne(r, items[i], depth);
      assert RedactItems(r, items[i..], depth) == [out] + RedactItems(r, items[i + 1..], depth) by {
        assert items[i..][0] == items[i] && items[i..][1..] == items[i + 1..];
      }
      Shift(result, out, RedactItems(r, items[i + 1..], depth));
      result := result + [out];
    }
    assert items[|items|..] == [];
    assert result + [] == result;
  }

  lemma Shift<T>(done: seq<T>, next: T, rest: seq<T>)
    ensures done + ([next] + rest) == (done + [next]) + rest
  {
  }

  // ---------------------------------------------------------------------------- results

  ghost predicate GoodRules(r: Rules) {
    PatternFree(r.patterns) && !Matches(r.patterns, PLACEHOLDER) && !r.sensitive(DEEP.key)
  }

  /** The placeholder under every sensitive field, no pattern in any string leaf. */
  predicate Clean(r: Rules, v: Json)
    decreases v, 1
  {
    match v
    case Obj(fields) => CleanFields(r, fields)
    case Arr(items) => CleanItems(r, items)
    case Str(s) => !Matches(r.patterns, s)
    case _ => true
  }

  predicate CleanFields(r: Rules, fields: seq<Field>)
    decreases fields, 0
  {
    |fields| == 0
    || ((if r.sensitive(fields[0].key) then fields[0].value == Str(PLACEHOLDER) else Clean(r, fields[0].value))
        && CleanFields(r, fields[1..]))
  }

  predicate CleanItems(r: Rules, items: seq<Json>)
    decreases items, 0
  {
    |items| == 0 || (Clean(r, items[0]) && CleanItems(r, items[1..]))
  }

  lemma {:induction false} ValueIsClean(r: Rules, v: Json, depth: nat)
    requires GoodRules(r)
    ensures Clean(r, RedactValue(r, v, depth))
    decreases v, 2
  {
    match v
    case Obj(fields) => DictIsClean(r, fields, depth + 1);
    case Arr(items) => ItemsAreClean(r, items, depth + 1);
    case _ =>
  }

  /** Redaction leaves nothing sensitive, at any depth. */
  lemma {:induction false} DictIsClean(r: Rules, fields: seq<Field>, depth: nat)
    requires GoodRules(r)
    ensures CleanFields(r, RedactDict(r, fields, depth))
    decreases fields, 1
  {
    if depth > MAX_DEPTH {
      assert [DEEP][1..] == [];
      assert Clean(r, DEEP.value);
    } else {
      FieldsAreClean(r, fields, depth);
    }
  }

  lemma {:induction false} FieldsAreClean(r: Rules, fields: seq<Field>, depth: nat)
    requires GoodRules(r)
    ensures CleanFields(r, RedactFields(r, fields, depth))
    decreases fields, 0
  {
    if |fields| > 0 {
      ValueIsClean(r, fields[0].value, depth);
      FieldsAreClean(r, fields[1..], depth);
      assert RedactFields(r, fields, depth)[1..] == RedactFields(r, fields[1..], depth);
    }
  }

  lemma {:induction false} ItemsAreClean(r: Rules, items: seq<Json>, depth: nat)
    requires GoodRules(r)
    ensures CleanItems(r, RedactItems(r, items, depth))
    decreases items, 0
  {
    if |items| > 0 {
      ValueIsClean(r, items[0], depth);
      ItemsAreClean(r, items[1..], depth);
      assert RedactItems(r, items, depth)[1..] == RedactItems(r, items[1..], depth);
    }
  }

  /** out has the keys and list lengths of v down to the depth cut, unredacted leaves
    * untouched, and nothing but the cut marker below it. */
  predicate Mirrors(r: Rules, v: Json, out: Json, depth: nat)
    decreases v, 1
  {
    match v
    case Obj(fields) => out.Obj? && MirrorsDict(r, fields, out.fields, depth + 1)
    case Arr(items) => out.Arr? && MirrorsItems(r, items, out.items, depth + 1)
    case Str(s) =>
      var hit := exists k :: 0 <= k < |r.patterns| && r.patterns[k].search(s);
      out == Str(if hit then SubAll(r.patterns, s) else s)
    case _ => out == v
  }

  predicate MirrorsDict(r: Rules, fields: seq<Field>, out: seq<Field>, depth: nat)
    decreases fields, 1
  {
    if depth > 10 then out == [Field("[REDACTED_DEEP]", Bool(true))] else MirrorsFields(r, fields, out, depth)
  }

  predicate MirrorsFields(r: Rules, fields: seq<Field>, out: seq<Field>, depth: nat)
    decreases fields, 0
  {
    && |out| == |fields|
    && (|fields| > 0 ==>
          && out[0].key == fields[0].key
          && (if r.sensitive(fields[0].key) then out[0].value == Str("[REDACTED]")
              else Mirrors(r, fields[0].value, out[0].value, depth))
          && MirrorsFields(r, fields[1..], out[1..], depth))
  }

  predicate MirrorsItems(r: Rules, items: seq<Json>, out: seq<Json>, depth: nat)
    decreases items, 0
  {
    && |out| == |items|
    && (|items| > 0 ==> Mirrors(r, items[0], out[0], depth) && MirrorsItems(r, items[1..], out[1..], depth))
  }

  lemma {:induction false} ValueMirrors(r: Rules, v: Json, depth: nat)
    ensures Mirrors(r, v, RedactValue(r, v, depth), depth)
    decreases v, 1
  {
    match v
    case Obj(fields) => DictMirrors(r, fields, depth + 1);
    case Arr(items) => ItemsMirror(r, items, depth + 1);
    case _ =>
  }

  lemma {:induction false} DictMirrors(r: Rules, fields: seq<Field>, depth: nat)
    ensures MirrorsDict(r, fields, RedactDict(r, fields, depth), depth)
    decreases fields, 1
  {
    if depth <= MAX_DEPTH {
      FieldsMirror(r, fields, depth);
    }
  }

  lemma {:induction false} FieldsMirror(r: Rules, fields: seq<Field>, depth: nat)
    ensures MirrorsFields(r, fields, RedactFields(r, fields, depth), depth)
    decreases fields, 0
  {
    if |fields| > 0 {
      ValueMirrors(r, fields[0].value, depth);
      FieldsMirror(r, fields[1..], depth);
      assert RedactFields(r, fields, depth)[1..] == RedactFields(r, fields[1..], depth);
    }
  }

  lemma {:induction false} ItemsMirror(r: Rules, items: seq<Json>, depth: nat)
    ensures MirrorsItems(r, items, RedactItems(r, items, depth), depth)
    decreases items, 0
  {
    if |items| > 0 {
      ValueMirrors(r, items[0], depth);
      ItemsMirror(r, items[1..], depth);
      assert RedactItems(r, items, depth)[1..] == RedactItems(r, items[1..], depth);
    }
  }

  /** Redacting a redacted value again changes nothing. */
  lemma {:induction false} ValueTwice(r: Rules, v: Json, depth: nat)
    requires GoodRules(r)
    ensures RedactValue(r, RedactValue(r, v, depth), depth) == RedactValue(r, v, depth)
    decreases v, 2
  {
    match v
    case Obj(fields) => DictTwice(r, fields, depth + 1);
    case Arr(items) => ItemsTwice(r, items, depth + 1);
    case Str(s) => ValueIsClean(r, v, depth);
    case _ =>
  }

  lemma {:induction false} DictTwice(r: Rules, fields: seq<Field>, depth: nat)
    requires GoodRules(r)
    ensures RedactDict(r, RedactDict(r, fields, depth), depth) == RedactDict(r, fields, depth)
    decreases fields, 1
  {
    if depth <= MAX_DEPTH {
      FieldsTwice(r, fields, depth);
    }
  }

  lemma {:induction false} FieldsTwice(r: Rules, fields: seq<Field>, depth: nat)
    requires GoodRules(r)
    ensures RedactFields(r, RedactFields(r, fields, depth), depth) == RedactFields(r, fields, depth)
    decreases fields, 0
  {
    if |fields| > 0 {
      ValueTwice(r, fields[0].value, depth);
      FieldsTwice(r, fields[1..], depth);
      assert RedactFields(r, fields, depth)[1..] == RedactFields(r, fields[1..], depth);
    }
  }

  lemma {:induction false} ItemsTwice(r: Rules, items: seq<Json>, depth: nat)
    requires GoodRules(r)
    ensures RedactItems(r, RedactItems(r, items, depth), depth) == RedactItems(r, items, depth)
    decreases items, 0
  {
    if |items| > 0 {
      ValueTwice(r, items[0], depth);
      ItemsTwice(r, items[1..], depth);
      assert RedactItems(r, items, depth)[1..] == RedactItems(r, items[1..], depth);
    }
  }

  // ------------------------------------------------------------------ sensitive field names

  const CREDENTIAL_NAMES: set<string> := {
    "token", "api_key", "api_token", "secret", "password", "credential", "auth_token", "access_token", "refresh_token",
    "id_token", "bearer", "x_auth_token", "authorization", "x_api_key"
  }

  const RAW_NAMES: set<string> := {
    "raw_body", "raw_payload", "raw_content", "pin_data", "pinData", "base64", "raw_base64", "_raw_base64", "_raw_url"
  }

  const PERSONAL_NAMES: set<string> := {
    "phone", "phone_number", "raw_phone", "contact_phone", "email", "cpf", "cnpj", "rg", "account_id",
    "real_account_id",
    "headers", "cookie", "cookies", "x_forwarded_for"
  }

  const PRIVATE_NAMES: set<string> := {
    "_private_content", "private_note", "private_content", "private_message",
    "attachment_url", "download_url", "temp_url", "temporary_url", "media_url", "file_url", "audio_url", "image_url",
    "raw_attachment"
  }

  const SENSITIVE_NAMES: set<string> := CREDENTIAL_NAMES + RAW_NAMES + PERSONAL_NAMES + PRIVATE_NAMES

  function Underscored(s: string): (u: string)
    ensures |u| == |s|
    ensures forall i :: 0 <= i < |s| ==> u[i] == if s[i] == '-' || s[i] == ' ' then '_' else s[i]
  {
    seq(|s|, i requires 0 <= i < |s| => if s[i] == '-' || s[i] == ' ' then '_' else s[i])
  }

  predicate IsSensitiveField(low: Casing, key: string) {
    Underscored(Lower(low, key)) in SENSITIVE_NAMES
  }

  lemma {:induction false} NeverYields(low: Casing, s: string, c: char)
    requires forall d :: c !in low(d)
    ensures c !in Lower(low, s)
  {
    if |s| > 0 {
      NeverYields(low, s[1..], c);
    }
  }

  /** Neither "pindata" nor a bracketed marker. */
  predicate Ordinary(n: string) {
    |n| > 0 && n[0] != '[' && (|n| == 7 && n[0] == 'p' ==> n[3] == 'D')
  }

  lemma CredentialNames()
    ensures forall n :: n in CREDENTIAL_NAMES ==> Ordinary(n)
  {
  }

  lemma RawNames()
    ensures forall n :: n in RAW_NAMES ==> Ordinary(n)
  {
  }

  lemma PersonalNames()
    ensures forall n :: n in PERSONAL_NAMES ==> Ordinary(n)
  {
  }

  lemma PrivateNames()
    ensures forall n :: n in PRIVATE_NAMES ==> Ordinary(n)
  {
  }

  lemma NamesAreOrdinary()
    ensures forall n :: n in SENSITIVE_NAMES ==> Ordinary(n)
  {
    CredentialNames();
    RawNames();
    PersonalNames();
    PrivateNames();
  }

  /** The marker for a cut is not itself a sensitive field, as GoodRules asks. */
  lemma CutMarkerIsNotSensitive(low: Casing)
    requires low('[') == "["
    ensures !IsSensitiveField(low, DEEP.key)
  {
    NamesAreOrdinary();
    assert Lower(low, DEEP.key)[0] == '[';
  }

  /** Lowering never yields an upper-case D, so the entry pinData matches no key: the
    * recognised names are the others, and a field called pinData is not recognised. */
  lemma PinDataNeverMatches(low: Casing, key: string)
    requires forall d :: 'D' !in low(d)
    ensures IsSensitiveField(low, key) <==> Underscored(Lower(low, key)) in SENSITIVE_NAMES - {"pinData"}
    ensures Lower(low, key) == "pindata" ==> !IsSensitiveField(low, key)
  {
    NeverYields(low, key, 'D');
    NamesAreOrdinary();
    var u := Underscored(Lower(low, key));
    assert "pinData"[3] == 'D';
    assert |u| > 3 ==> u[3] != 'D';
    if Lower(low, key) == "pindata" {
      assert u[0] == 'p' && u[3] == 'd';
    }
  }
}
