/** How `/api/pending-sent` turns its request into the list of usernames to
    check: names found in an uploaded data export first, then pasted text
    split on `[\n,\s]+`; each pasted token stripped with every leading `@`
    removed; empty tokens dropped; duplicates dropped keeping the first
    occurrence. The HTML scan of the export is an input (its two regular
    expression results). */
module ServerNames {

  import opened Wrappers
  import opened Json
  import opened Text
  import Lists

  /** `u.strip().lstrip("@")`. */
  function Normalize(u: string): string {
    LStripAll(Strip(Python, u), '@')
  }

  /** `f` applied to each string of `xs`. */
  function MapStrings(f: string -> string, xs: seq<string>): (r: seq<string>)
    ensures |r| == |xs| && forall i :: 0 <= i < |xs| ==> r[i] == f(xs[i])
  {
    seq(|xs|, i requires 0 <= i < |xs| => f(xs[i]))
  }

  lemma MapStringsConcat(f: string -> string, a: seq<string>, b: seq<string>)
    ensures MapStrings(f, a + b) == MapStrings(f, a) + MapStrings(f, b)
  {
    var l := MapStrings(f, a + b);
    var r := MapStrings(f, a) + MapStrings(f, b);
    forall k | 0 <= k < |l| ensures l[k] == r[k] {
      if k < |a| {
        assert (a + b)[k] == a[k];
      } else {
        assert (a + b)[k] == b[k - |a|];
      }
    }
  }

  lemma MapStringsCons(f: string -> string, xs: seq<string>)
    requires xs != []
    ensures MapStrings(f, xs) == [f(xs[0])] + MapStrings(f, xs[1..])
  {
    var l := MapStrings(f, xs);
    var r := [f(xs[0])] + MapStrings(f, xs[1..]);
    forall k | 0 <= k < |l| ensures l[k] == r[k] {
      if k > 0 {
        assert xs[1..][k - 1] == xs[k];
      }
    }
  }

  /** Each token normalized. */
  function Normalized(tokens: seq<string>): seq<string> {
    MapStrings(Normalize, tokens)
  }

  /** The non-empty strings of `vs`, in order. */
  function NonEmpty(vs: seq<string>): seq<string> {
    if vs == [] then [] else (if vs[0] != "" then [vs[0]] else []) + NonEmpty(vs[1..])
  }

  /** The normalized tokens the loops keep, before deduplication. */
  function Cleaned(tokens: seq<string>): seq<string> {
    NonEmpty(Normalized(tokens))
  }

  /** Cleaning a non-empty list: its first token, if it normalizes to
      something, then the rest cleaned. */
  lemma CleanedCons(tokens: seq<string>)
    requires tokens != []
    ensures var v := Normalize(tokens[0]);
      Cleaned(tokens) == (if v != "" then [v] else []) + Cleaned(tokens[1..])
  {
    MapStringsCons(Normalize, tokens);
    var n := Normalized(tokens);
    assert n[0] == Normalize(tokens[0]) && n[1..] == Normalized(tokens[1..]);
  }

  lemma {:induction false} NonEmptyConcat(a: seq<string>, b: seq<string>)
    ensures NonEmpty(a + b) == NonEmpty(a) + NonEmpty(b)
    decreases |a|
  {
    if a == [] {
      assert a + b == b;
    } else {
      assert (a + b)[0] == a[0] && (a + b)[1..] == a[1..] + b;
      NonEmptyConcat(a[1..], b);
    }
  }

  /** The pasted-token loop: each token normalized, kept when non-empty and new. */
  method AddTokens(usernames: seq<string>, tokens: seq<string>) returns (r: seq<string>)
    ensures r == Lists.AppendNew(usernames, Cleaned(tokens))
  {
    r := usernames;
    var i := 0;
    while i < |tokens|
      invariant 0 <= i <= |tokens|
      invariant Lists.AppendNew(usernames, Cleaned(tokens)) == Lists.AppendNew(r, Cleaned(tokens[i..]))
    {
      assert tokens[i..][1..] == tokens[i + 1..];
      CleanedCons(tokens[i..]);
      var v := Normalize(tokens[i]);
      var head := if v != "" then [v] else [];
      Lists.AppendNewConcat(r, head, Cleaned(tokens[i + 1..]));
      if v != "" && v !in r {
        r := r + [v];
      }
      i := i + 1;
    }
    assert tokens[i..] == [];
  }

  /** The two scans of an uploaded export: `(username, date)` pairs, and the
      bare profile links used when there are no pairs. */
  datatype FileScan = FileScan(pairs: seq<(string, string)>, hrefs: seq<string>)

  function Firsts(pairs: seq<(string, string)>): (r: seq<string>) {
    seq(|pairs|, k requires 0 <= k < |pairs| => pairs[k].0)
  }

  lemma FirstsTail(pairs: seq<(string, string)>)
    requires pairs != []
    ensures Firsts(pairs)[1..] == Firsts(pairs[1..])
  {
    var a := Firsts(pairs)[1..];
    var b := Firsts(pairs[1..]);
    forall k | 0 <= k < |a| ensures a[k] == b[k] {
      assert a[k] == pairs[k + 1].0 && pairs[1..][k] == pairs[k + 1];
    }
  }

  lemma FirstsSnoc(pairs: seq<(string, string)>, p: (string, string))
    ensures Firsts(pairs + [p]) == Firsts(pairs) + [p.0]
  {
    var a := Firsts(pairs + [p]);
    var b := Firsts(pairs) + [p.0];
    forall k | 0 <= k < |a| ensures a[k] == b[k] {
      if k < |pairs| {
        assert (pairs + [p])[k] == pairs[k];
      }
    }
  }

  /** The date of the first pair naming `name`. */
  function FirstDate(pairs: seq<(string, string)>, name: string): string
    requires name in Firsts(pairs)
  {
    if pairs[0].0 == name then pairs[0].1
    else
      FirstsTail(pairs);
      FirstDate(pairs[1..], name)
  }

  lemma {:induction false} FirstDateOfLonger(pairs: seq<(string, string)>, p: (string, string), name: string)
    requires name in Firsts(pairs)
    ensures name in Firsts(pairs + [p]) && FirstDate(pairs + [p], name) == FirstDate(pairs, name)
    decreases |pairs|
  {
    var q := pairs + [p];
    FirstsSnoc(pairs, p);
    assert q[0] == pairs[0];
    if pairs[0].0 != name {
      FirstsTail(pairs);
      FirstsTail(q);
      Lists.TailSnoc(pairs, p);
      FirstDateOfLonger(pairs[1..], p, name);
    }
  }

  lemma {:induction false} FirstDateOfNew(pairs: seq<(string, string)>, p: (string, string))
    requires p.0 !in Firsts(pairs)
    ensures p.0 in Firsts(pairs + [p]) && FirstDate(pairs + [p], p.0) == p.1
    decreases |pairs|
  {
    var q := pairs + [p];
    FirstsSnoc(pairs, p);
    if pairs != [] {
      assert q[0] == pairs[0];
      assert Firsts(pairs)[0] == pairs[0].0;
      Lists.TailSnoc(pairs, p);
      FirstsTail(pairs);
      FirstsTail(q);
      FirstDateOfNew(pairs[1..], p);
    }
  }

  /** The names taken from the export, in first-occurrence order. */
  function FileNames(upload: Option<FileScan>): seq<string> {
    match upload
    case None => []
    case Some(scan) => Lists.AppendNew([], if scan.pairs != [] then Firsts(scan.pairs) else scan.hrefs)
  }

  /** `dates[uname] = date.strip()` for the first pair of each name. */
  function DatesOf(pairs: seq<(string, string)>): map<string, string> {
    if pairs == [] then map[]
    else
      var d := DatesOf(pairs[..|pairs| - 1]);
      var p := pairs[|pairs| - 1];
      if p.0 in d then d else d[p.0 := Strip(Python, p.1)]
  }

  /** The dates taken from the export, which only pairs supply. */
  function ExportDates(upload: Option<FileScan>): map<string, string> {
    if upload.None? then map[] else DatesOf(upload.value.pairs)
  }

  /** Every name of a pair gets a date, the stripped date of its first pair,
      and nothing else gets one. */
  lemma {:induction false} DatesOfSpec(pairs: seq<(string, string)>)
    ensures forall n :: n in DatesOf(pairs) <==> n in Firsts(pairs)
    ensures forall n :: n in DatesOf(pairs) ==> n in Firsts(pairs) && DatesOf(pairs)[n] == Strip(Python, FirstDate(pairs, n))
    decreases |pairs|
  {
    if pairs != [] {
      var before := pairs[..|pairs| - 1];
      var p := pairs[|pairs| - 1];
      assert pairs == before + [p];
      DatesOfSpec(before);
      FirstsSnoc(before, p);
      forall n | n in Firsts(before)
        ensures n in Firsts(pairs) && FirstDate(pairs, n) == FirstDate(before, n)
      {
        FirstDateOfLonger(before, p, n);
      }
      if p.0 !in Firsts(before) {
        FirstDateOfNew(before, p);
      }
    }
  }

  lemma {:induction false} DatesOfKeys(pairs: seq<(string, string)>, n: string)
    ensures n in DatesOf(pairs) <==> n in Firsts(pairs)
  {
    DatesOfSpec(pairs);
  }

  /** Reading one more pair. */
  lemma {:induction false} DatesOfSnoc(before: seq<(string, string)>, p: (string, string))
    ensures DatesOf(before + [p]) == if p.0 in DatesOf(before) then DatesOf(before) else DatesOf(before)[p.0 := Strip(Python, p.1)]
  {
    assert (before + [p])[..|before|] == before;
  }

  lemma {:induction false} PairStep(pairs: seq<(string, string)>, i: nat, names: seq<string>, dates: map<string, string>)
    requires i < |pairs|
    requires names == Lists.AppendNew([], Firsts(pairs[..i]))
    requires dates == DatesOf(pairs[..i])
    ensures var p := pairs[i];
      if p.0 in names then
        names == Lists.AppendNew([], Firsts(pairs[..i + 1])) && dates == DatesOf(pairs[..i + 1])
      else
        names + [p.0] == Lists.AppendNew([], Firsts(pairs[..i + 1])) && dates[p.0 := Strip(Python, p.1)] == DatesOf(pairs[..i + 1])
  {
    var p := pairs[i];
    var before := pairs[..i];
    assert pairs[..i + 1] == before + [p];
    FirstsSnoc(before, p);
    Lists.AppendNewConcat([], Firsts(before), [p.0]);
    Lists.AppendNewSpec([], Firsts(before));
    DatesOfKeys(before, p.0);
    DatesOfSnoc(before, p);
  }

  /** The export part of `api_pending_sent`. */
  method FromExport(upload: Option<FileScan>) returns (names: seq<string>, dates: map<string, string>)
    ensures names == FileNames(upload)
    ensures dates == ExportDates(upload)
  {
    if upload.None? {
      return [], map[];
    }
    var scan := upload.value;
    if scan.pairs != [] {
      names, dates := FromPairs(scan.pairs);
    } else {
      dates := map[];
      names := AddNames([], scan.hrefs);
    }
  }

  /** The pairs loop: each new name appended, with its date stripped. */
  method FromPairs(pairs: seq<(string, string)>) returns (names: seq<string>, dates: map<string, string>)
    ensures names == Lists.AppendNew([], Firsts(pairs))
    ensures dates == DatesOf(pairs)
  {
    names := [];
    dates := map[];
    var i := 0;
    while i < |pairs|
      invariant 0 <= i <= |pairs|
      invariant names == Lists.AppendNew([], Firsts(pairs[..i]))
      invariant dates == DatesOf(pairs[..i])
    {
      var p := pairs[i];
      PairStep(pairs, i, names, dates);
      if p.0 !in names {
        names := names + [p.0];
        dates := dates[p.0 := Strip(Python, p.1)];
      }
      i := i + 1;
    }
    assert pairs[..i] == pairs;
  }

  /** The fallback loop: each new name appended. */
  method AddNames(usernames: seq<string>, xs: seq<string>) returns (r: seq<string>)
    ensures r == Lists.AppendNew(usernames, xs)
  {
    r := usernames;
    var i := 0;
    while i < |xs|
      invariant 0 <= i <= |xs|
      invariant Lists.AppendNew(usernames, xs) == Lists.AppendNew(r, xs[i..])
    {
      assert xs[i..][0] == xs[i] && xs[i..][1..] == xs[i + 1..];
      if xs[i] !in r {
        r := r + [xs[i]];
      }
      i := i + 1;
    }
    assert xs[i..] == [];
  }

  /** `request.form.get("usernames", "")`: the first value of the field. */
  function FormGet(values: seq<string>): (v: string)
    ensures values == [] ==> v == ""
    ensures values != [] ==> v == values[0]
  {
    if values == [] then "" else values[0]
  }

  /** The tokens of pasted text: none when the text is empty. */
  function PastedTokens(raw: string): seq<string> {
    if raw == "" then [] else Split(Python, raw)
  }

  /** The usernames of a multipart request whose pasted text is `raw`. */
  function MultipartNames(upload: Option<FileScan>, raw: string): seq<string> {
    Lists.AppendNew(FileNames(upload), Cleaned(PastedTokens(raw)))
  }

  /** What `/api/pending-sent` answers, before the task is stored. */
  datatype PendingSentResult =
    | Accepted(usernames: seq<string>, dates: map<string, string>)
    | NoUsernamesProvided
    | ServerError

  /** The multipart branch of `api_pending_sent`: `formValues` are the
      values of the `usernames` field, in the order the browser appended them. */
  method PendingSentMultipart(upload: Option<FileScan>, formValues: seq<string>) returns (r: PendingSentResult)
    ensures var names := MultipartNames(upload, FormGet(formValues));
      if names == [] then r == NoUsernamesProvided
      else r == Accepted(names, ExportDates(upload))
  {
    var names, dates := FromExport(upload);
    var raw := FormGet(formValues);
    if raw != "" {
      names := AddTokens(names, Split(Python, raw));
    }
    if names == [] {
      return NoUsernamesProvided;
    }
    r := Accepted(names, dates);
  }

  /** `request.get_json() or {}`: the fields of the decoded body, with a
      missing or falsy body read as an empty object. A truthy body that is
      not an object has no `.get`, which raises (`None`). */
  function BodyFields(body: Option<Json>): Option<map<string, Json>> {
    if body.None? || !PyTruthy(body.value) then Some(map[])
    else if body.value.Obj? then Some(body.value.fields)
    else None
  }

  /** What `for u in data.get("usernames", [])` visits: a list's items, a
      string's characters or an object's keys; `null`, a number or a boolean
      is not iterable and raises, as does a body without `.get` (`None`). */
  function JsonItems(body: Option<Json>, keyOrder: seq<string>): Option<seq<Json>> {
    match BodyFields(body)
    case None => None
    case Some(m) =>
      match GetOr(m, "usernames", Arr([]))
      case Arr(items) => Some(items)
      case Str(chars) => Some(Characters(chars))
      case Obj(_) => Some(KeyStrings(keyOrder))
      case _ => None
  }

  /** What the loop over the visited values answers: an element that is not
      a string makes `.strip()` raise, which Flask answers with a server
      error; otherwise the cleaned, deduplicated names, or the 400 when
      there are none. */
  function ListOutcome(items: seq<Json>): PendingSentResult {
    if exists k :: 0 <= k < |items| && !items[k].Str? then ServerError
    else
      var names := Lists.AppendNew([], Cleaned(Strings(items)));
      if names == [] then NoUsernamesProvided else Accepted(names, map[])
  }

  /** The JSON branch of `api_pending_sent`. */
  method PendingSentJson(body: Option<Json>, keyOrder: seq<string>) returns (r: PendingSentResult)
    ensures JsonItems(body, keyOrder).None? ==> r == ServerError
    ensures JsonItems(body, keyOrder).Some? ==> r == ListOutcome(JsonItems(body, keyOrder).value)
  {
    var fields := BodyFields(body);
    if fields.None? {
      return ServerError;
    }
    var value := GetOr(fields.value, "usernames", Arr([]));
    var items: seq<Json>;
    match value {
      case Arr(xs) => items := xs;
      case Str(chars) => items := Characters(chars);
      case Obj(_) => items := KeyStrings(keyOrder);
      case Null => return ServerError;
      case Bool(_) => return ServerError;
      case Num(_) => return ServerError;
    }
    r := NamesFromList(items);
  }

  /** The loop `for u in raw_list` of the JSON branch. */
  method NamesFromList(items: seq<Json>) returns (r: PendingSentResult)
    ensures r == ListOutcome(items)
  {
    var names: seq<string> := [];
    var i := 0;
    while i < |items|
      invariant 0 <= i <= |items|
      invariant forall k :: 0 <= k < i ==> items[k].Str?
      invariant names == Lists.AppendNew([], Cleaned(Strings(items[..i])))
    {
      if !items[i].Str? {
        return ServerError;
      }
      JsonStep(items, i, names);
      var v := Normalize(items[i].s);
      if v != "" && v !in names {
        names := names + [v];
      }
      i := i + 1;
    }
    assert items[..i] == items;
    if names == [] {
      return NoUsernamesProvided;
    }
    r := Accepted(names, map[]);
  }

  /** The loop answers a server error exactly when some value is not a
      string, and otherwise accepts exactly the cleaned names, without
      duplicates, or answers 400 when none is left. */
  lemma {:induction false} ListOutcomeSpec(items: seq<Json>)
    ensures ListOutcome(items) == ServerError <==> exists k :: 0 <= k < |items| && !items[k].Str?
    ensures ListOutcome(items).Accepted? ==>
      && (forall k :: 0 <= k < |items| ==> items[k].Str?)
      && Lists.NoDup(ListOutcome(items).usernames)
      && (forall x :: x in ListOutcome(items).usernames <==> x in Cleaned(Strings(items)))
      && ListOutcome(items).usernames == Lists.FirstOccurrences([], Cleaned(Strings(items)))
      && ListOutcome(items).dates == map[]
    ensures ListOutcome(items) == NoUsernamesProvided <==>
      (forall k :: 0 <= k < |items| ==> items[k].Str?) && Cleaned(Strings(items)) == []
  {
    if forall k :: 0 <= k < |items| ==> items[k].Str? {
      Lists.AppendNewSpec([], Cleaned(Strings(items)));
    }
  }

  /** The non-list cases of the body: a missing or falsy body, or a missing
      key, reads as no usernames; a truthy non-object body, or a `usernames`
      value that is `null`, a number or a boolean, is a server error. */
  lemma {:induction false} JsonBodyCases(body: Option<Json>, keyOrder: seq<string>)
    ensures (body.None? || !PyTruthy(body.value)) ==> JsonItems(body, keyOrder) == Some([])
    ensures body.Some? && PyTruthy(body.value) && !body.value.Obj? ==> JsonItems(body, keyOrder).None?
    ensures body.Some? && body.value.Obj? && "usernames" !in body.value.fields ==> JsonItems(body, keyOrder) == Some([])
    ensures body.Some? && body.value.Obj? && "usernames" in body.value.fields
      && (body.value.fields["usernames"].Null? || body.value.fields["usernames"].Bool? || body.value.fields["usernames"].Num?)
      ==> JsonItems(body, keyOrder).None?
    ensures ListOutcome([]) == NoUsernamesProvided
  {
    assert Cleaned(Strings([])) == [];
  }

  /** A `usernames` string is iterated one character at a time: each
      character that is not whitespace or `@` becomes a name of its own. */
  lemma {:induction false} StringIteratedByCharacter()
    ensures ListOutcome(JsonItems(Some(Obj(map["usernames" := Str("bob")])), []).value)
      == Accepted(["b", "o"], map[])
  {
    var m := map["usernames" := Str("bob")];
    assert "usernames" in m;
    assert PyTruthy(Obj(m));
    assert JsonItems(Some(Obj(m)), []) == Some(Characters("bob"));
    BobCharacters();
  }

  lemma {:induction false} BobCharacters()
    ensures ListOutcome(Characters("bob")) == Accepted(["b", "o"], map[])
  {
    var items := Characters("bob");
    assert forall k :: 0 <= k < |items| ==> items[k].Str?;
    var strs := Strings(items);
    assert strs == ["b", "o", "b"] by {
      assert |strs| == 3 && strs[0] == "b" && strs[1] == "o" && strs[2] == "b";
    }
    CleanBob();
    AppendNewBob();
  }

  lemma {:induction false} AppendNewBob()
    ensures Lists.AppendNew([], ["b", "o", "b"]) == ["b", "o"]
  {
    assert ["b", "o", "b"][1..] == ["o", "b"];
    assert ["o", "b"][1..] == ["b"];
    assert ["b"][1..] == [];
    assert Lists.AppendNew(["b", "o"], ["b"]) == Lists.AppendNew(["b", "o"], []);
  }

  lemma {:induction false} CleanBob()
    ensures Cleaned(["b", "o", "b"]) == ["b", "o", "b"]
  {
    var names := ["b", "o", "b"];
    forall i | 0 <= i < |names| ensures names[i] != "" && Normalize(names[i]) == names[i] {
      assert CleanName(names[i]);
      NormalizeClean(names[i]);
    }
    CleanedOfClean(names);
  }

  /** A `usernames` object contributes its keys: when they are clean names,
      the accepted list is exactly the keys in the order they were decoded. */
  lemma {:induction false} ObjectIteratedByKeys(body: Option<Json>, keyOrder: seq<string>, m: map<string, Json>)
    requires body.Some? && body.value.Obj? && "usernames" in body.value.fields
    requires body.value.fields["usernames"] == Obj(m) && IsKeyOrder(keyOrder, m)
    requires m != map[] && forall k :: k in m ==> CleanName(k)
    ensures ListOutcome(JsonItems(body, keyOrder).value) == Accepted(keyOrder, map[])
  {
    assert PyTruthy(body.value);
    assert JsonItems(body, keyOrder) == Some(KeyStrings(keyOrder));
    var k :| k in m;
    assert k in keyOrder;
    KeysAccepted(keyOrder);
  }

  /** Distinct clean keys are accepted as they are. */
  lemma {:induction false} KeysAccepted(keyOrder: seq<string>)
    requires keyOrder != [] && Lists.NoDup(keyOrder)
    requires forall i :: 0 <= i < |keyOrder| ==> CleanName(keyOrder[i])
    ensures ListOutcome(KeyStrings(keyOrder)) == Accepted(keyOrder, map[])
  {
    var items := KeyStrings(keyOrder);
    assert Strings(items) == keyOrder;
    forall i | 0 <= i < |keyOrder| ensures keyOrder[i] != "" && Normalize(keyOrder[i]) == keyOrder[i] {
      NormalizeClean(keyOrder[i]);
    }
    CleanedOfClean(keyOrder);
    assert [] + keyOrder == keyOrder;
    Lists.AppendNewOfDistinct([], keyOrder);
  }

  lemma {:induction false} JsonStep(items: seq<Json>, i: nat, names: seq<string>)
    requires i < |items| && forall k :: 0 <= k <= i ==> items[k].Str?
    requires names == Lists.AppendNew([], Cleaned(Strings(items[..i])))
    ensures var v := Normalize(items[i].s);
      Lists.AppendNew([], Cleaned(Strings(items[..i + 1]))) == if v != "" && v !in names then names + [v] else names
  {
    var a := Strings(items[..i]);
    var t := items[i].s;
    calc {
      Lists.AppendNew([], Cleaned(Strings(items[..i + 1])));
      { StringsPrefix(items, i); }
      Lists.AppendNew([], Cleaned(a + [t]));
      { CleanedConcat(a, [t]); }
      Lists.AppendNew([], Cleaned(a) + Cleaned([t]));
      { Lists.AppendNewConcat([], Cleaned(a), Cleaned([t])); }
      Lists.AppendNew(names, Cleaned([t]));
    }
    AddOne(names, t);
  }

  lemma {:induction false} StringsPrefix(items: seq<Json>, i: nat)
    requires i < |items| && forall k :: 0 <= k <= i ==> items[k].Str?
    ensures Strings(items[..i + 1]) == Strings(items[..i]) + [items[i].s]
  {
    assert items[..i + 1] == items[..i] + [items[i]];
    StringsSnoc(items[..i], items[i]);
  }

  /** Adding one token. */
  lemma {:induction false} AddOne(names: seq<string>, t: string)
    ensures var v := Normalize(t);
      Lists.AppendNew(names, Cleaned([t])) == if v != "" && v !in names then names + [v] else names
  {
    CleanedCons([t]);
    assert [t][1..] == [];
  }

  function Strings(items: seq<Json>): (r: seq<string>)
    requires forall k :: 0 <= k < |items| ==> items[k].Str?
    ensures |r| == |items| && forall k :: 0 <= k < |items| ==> r[k] == items[k].s
  {
    if items == [] then [] else [items[0].s] + Strings(items[1..])
  }

  lemma {:induction false} StringsSnoc(items: seq<Json>, j: Json)
    requires forall k :: 0 <= k < |items| ==> items[k].Str?
    requires j.Str?
    ensures Strings(items + [j]) == Strings(items) + [j.s]
  {
  }

  lemma CleanedConcat(a: seq<string>, b: seq<string>)
    ensures Cleaned(a + b) == Cleaned(a) + Cleaned(b)
  {
    MapStringsConcat(Normalize, a, b);
    NonEmptyConcat(Normalized(a), Normalized(b));
  }

  /** A pasted name as kept: non-empty, without separators, not starting with `@`. */
  predicate CleanName(x: string) {
    x != "" && x[0] != '@' && NoSeparator(Python, x)
  }

  /** A token without separators only loses its leading `@`s. */
  lemma {:induction false} NormalizeToken(t: string)
    requires NoSeparator(Python, t)
    ensures Normalize(t) != "" ==> CleanName(Normalize(t))
  {
    StripClean(Python, t);
    var k := LeadingRun(t, '@');
    var v := t[k..];
    assert Normalize(t) == v;
    NoSeparatorSuffix(Python, t, k);
    if v != "" {
      assert v[0] == t[k];
    }
  }

  /** Every pasted name kept is non-empty, holds no separator, and does not
      start with `@`. */
  lemma {:induction false} CleanedPastedShape(tokens: seq<string>)
    requires forall t :: t in tokens ==> NoSeparator(Python, t)
    ensures forall x :: x in Cleaned(tokens) ==> CleanName(x)
    decreases |tokens|
  {
    if tokens != [] {
      CleanedCons(tokens);
      NormalizeToken(tokens[0]);
      assert forall u :: u in tokens[1..] ==> u in tokens;
      CleanedPastedShape(tokens[1..]);
    }
  }

  /** The usernames of a multipart request: no duplicates; the export's names
      first, in their order; then exactly the pasted names not already
      present, each non-empty, without separators and without a leading `@`. */
  lemma {:induction false} MultipartNamesSpec(upload: Option<FileScan>, raw: string)
    ensures var names := MultipartNames(upload, raw);
      && Lists.NoDup(names)
      && |FileNames(upload)| <= |names| && names[..|FileNames(upload)|] == FileNames(upload)
      && (forall x :: x in names <==> x in FileNames(upload) || x in Cleaned(PastedTokens(raw)))
      && (forall x :: x in Cleaned(PastedTokens(raw)) ==> CleanName(x))
      && names == FileNames(upload) + Lists.FirstOccurrences(FileNames(upload), Cleaned(PastedTokens(raw)))
  {
    var base := if upload.Some? then (if upload.value.pairs != [] then Firsts(upload.value.pairs) else upload.value.hrefs) else [];
    Lists.AppendNewSpec([], base);
    Lists.AppendNewSpec(FileNames(upload), Cleaned(PastedTokens(raw)));
    if raw != "" {
      SplitFieldsHaveNoSeparator(Python, raw);
    }
    CleanedPastedShape(PastedTokens(raw));
  }

  // ------------------------------------------------------------------
  // Reading every value of the `usernames` field
  // ------------------------------------------------------------------

  /** A clean name is its own normalization. */
  lemma {:induction false} NormalizeClean(x: string)
    requires CleanName(x)
    ensures Normalize(x) == x
  {
    StripClean(Python, x);
  }

  /** Tokens that normalization leaves non-empty and unchanged pass through. */
  lemma {:induction false} CleanedOfClean(names: seq<string>)
    requires forall i :: 0 <= i < |names| ==> names[i] != "" && Normalize(names[i]) == names[i]
    ensures Cleaned(names) == names
    decreases |names|
  {
    if names != [] {
      var tail := names[1..];
      forall i | 0 <= i < |tail| ensures tail[i] != "" && Normalize(tail[i]) == tail[i] {
        assert tail[i] == names[i + 1];
      }
      CleanedOfClean(tail);
      CleanedCons(names);
      assert names == [names[0]] + tail;
    }
  }

  /** The tokens of every value of the field, value by value. */
  function PastedTokensAll(values: seq<string>): seq<string>
    decreases |values|
  {
    if values == [] then [] else PastedTokens(values[0]) + PastedTokensAll(values[1..])
  }

  /** The usernames of a multipart request when every value of the field is
      read (`request.form.getlist("usernames")`), in the order sent. */
  function MultipartNamesAll(upload: Option<FileScan>, values: seq<string>): seq<string> {
    Lists.AppendNew(FileNames(upload), Cleaned(PastedTokensAll(values)))
  }

  lemma {:induction false} PastedTokensAllContains(values: seq<string>, i: nat, x: string)
    requires i < |values| && x in Cleaned(PastedTokens(values[i]))
    ensures x in Cleaned(PastedTokensAll(values))
    decreases i
  {
    CleanedConcat(PastedTokens(values[0]), PastedTokensAll(values[1..]));
    if i > 0 {
      assert values[1..][i - 1] == values[i];
      PastedTokensAllContains(values[1..], i - 1, x);
    }
  }

  /** Reading every value keeps the export's names first, has no duplicates,
      loses no pasted name of any value, and agrees with `form.get` when the
      field has a single value. */
  lemma {:induction false} MultipartNamesAllSpec(upload: Option<FileScan>, values: seq<string>)
    ensures var names := MultipartNamesAll(upload, values);
      && Lists.NoDup(names)
      && |FileNames(upload)| <= |names| && names[..|FileNames(upload)|] == FileNames(upload)
      && (forall i, x :: 0 <= i < |values| && x in Cleaned(PastedTokens(values[i])) ==> x in names)
      && (|values| == 1 ==> names == MultipartNames(upload, FormGet(values)))
  {
    var base := if upload.Some? then (if upload.value.pairs != [] then Firsts(upload.value.pairs) else upload.value.hrefs) else [];
    Lists.AppendNewSpec([], base);
    var all := Cleaned(PastedTokensAll(values));
    Lists.AppendNewSpec(FileNames(upload), all);
    forall i, x | 0 <= i < |values| && x in Cleaned(PastedTokens(values[i]))
      ensures x in MultipartNamesAll(upload, values)
    {
      PastedTokensAllContains(values, i, x);
    }
    if |values| == 1 {
      assert PastedTokensAll(values) == PastedTokens(values[0]) + [];
      assert PastedTokens(values[0]) + [] == PastedTokens(values[0]);
    }
  }
}
