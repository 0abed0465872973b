/** The browser's parse of the usernames pasted into the lookup box
    (`resolveUsernames`): trim, split on `[\n,\s]+`, trim each token, remove
    one leading `@`, drop empty tokens. Unlike the server it removes a single
    `@` and keeps duplicates. */
module ClientNames {

  import opened Text

  datatype ParseOutcome =
    | EmptyInput
    | NoValidUsernames
    | Parsed(usernames: seq<string>)

  /** A token trimmed, then with at most one leading `@` removed. */
  function ClientName(u: string): string {
    RemoveOneLeading(Strip(JavaScript, u), '@')
  }

  /** Each token cleaned by `ClientName`, the empty results dropped. */
  function KeepNames(tokens: seq<string>): seq<string> {
    if tokens == [] then []
    else
      var v := ClientName(tokens[0]);
      (if |v| > 0 then [v] else []) + KeepNames(tokens[1..])
  }

  /** A blank box is refused before anything is split; a box whose tokens
      are all empty after cleaning is refused too; nothing else is. */
  function ParseUsernames(raw: string): (r: ParseOutcome)
    ensures r == EmptyInput <==> Strip(JavaScript, raw) == ""
    ensures r.Parsed? ==> r.usernames != [] && r.usernames == KeepNames(Split(JavaScript, Strip(JavaScript, raw)))
    ensures r == NoValidUsernames <==> Strip(JavaScript, raw) != "" && KeepNames(Split(JavaScript, Strip(JavaScript, raw))) == []
  {
    var t := Strip(JavaScript, raw);
    if t == "" then EmptyInput
    else
      var us := KeepNames(Split(JavaScript, t));
      if us == [] then NoValidUsernames else Parsed(us)
  }

  /** A token without separators loses at most one leading `@` and nothing else. */
  lemma {:induction false} OneAtRemoved(t: string)
    requires NoSeparator(JavaScript, t)
    ensures ClientName(t) == if t != [] && t[0] == '@' then t[1..] else t
  {
    StripClean(JavaScript, t);
  }

  /** `"@@alice"` becomes `"@alice"`. */
  lemma {:induction false} DoubleAtKeepsOne(x: string)
    requires NoSeparator(JavaScript, x)
    ensures ClientName("@@" + x) == "@" + x
  {
    var t := "@@" + x;
    assert NoSeparator(JavaScript, t) by {
      forall i | 0 <= i < |t| ensures !IsSeparator(JavaScript, t[i]) {
        if i >= 2 {
          assert t[i] == x[i - 2];
        }
      }
    }
    OneAtRemoved(t);
    assert t[1..] == "@" + x;
  }

  /** A cleaned token keeps having no separators. */
  lemma {:induction false} ClientNameClean(t: string)
    requires NoSeparator(JavaScript, t)
    ensures NoSeparator(JavaScript, ClientName(t))
  {
    StripClean(JavaScript, t);
    var v := RemoveOneLeading(t, '@');
    assert ClientName(t) == v;
    NoSeparatorSuffix(JavaScript, t, |t| - |v|);
  }

  predicate KeptName(u: string) {
    u != "" && NoSeparator(JavaScript, u)
  }

  lemma {:induction false} KeepNamesShape(tokens: seq<string>)
    requires forall t :: t in tokens ==> NoSeparator(JavaScript, t)
    ensures forall u :: u in KeepNames(tokens) ==> KeptName(u)
    decreases |tokens|
  {
    if tokens != [] {
      ClientNameClean(tokens[0]);
      assert forall u :: u in tokens[1..] ==> u in tokens;
      KeepNamesShape(tokens[1..]);
    }
  }

  /** Every parsed name is non-empty and holds no whitespace, comma or newline. */
  lemma {:induction false} ParsedNamesShape(raw: string)
    ensures var r := ParseUsernames(raw);
      r.Parsed? ==> forall u :: u in r.usernames ==> KeptName(u)
  {
    var t := Strip(JavaScript, raw);
    SplitFieldsHaveNoSeparator(JavaScript, t);
    KeepNamesShape(Split(JavaScript, t));
  }

  /** A name the user would type: non-empty, no separators, no leading `@`. */
  predicate PlainName(x: string) {
    x != "" && x[0] != '@' && NoSeparator(JavaScript, x)
  }

  lemma {:induction false} KeepPlainNames(names: seq<string>)
    requires forall i :: 0 <= i < |names| ==> PlainName(names[i])
    ensures KeepNames(names) == names
    decreases |names|
  {
    if names != [] {
      OneAtRemoved(names[0]);
      KeepPlainNames(names[1..]);
    }
  }

  /** Names pasted one per line come back exactly, in order and with every
      repetition: the browser does not deduplicate. */
  lemma {:induction false} ParseOfLines(names: seq<string>)
    requires |names| >= 1
    requires forall i :: 0 <= i < |names| ==> PlainName(names[i])
    ensures ParseUsernames(Join(names, "\n")) == Parsed(names)
  {
    var j := Join(names, "\n");
    JoinStartsWith(names, "\n");
    JoinEndsWith(names, "\n");
    assert !IsSpace(JavaScript, j[0]) by {
      assert !IsSeparator(JavaScript, names[0][0]);
    }
    var last := names[|names| - 1];
    assert !IsSpace(JavaScript, j[|j| - 1]) by {
      assert !IsSeparator(JavaScript, last[|last| - 1]);
    }
    StripNoEdges(JavaScript, j);
    SplitJoin(JavaScript, names, '\n');
    KeepPlainNames(names);
  }

  /** The same name pasted twice is looked up twice. */
  lemma {:induction false} DuplicatesKept(x: string)
    requires PlainName(x)
    ensures ParseUsernames(Join([x, x], "\n")) == Parsed([x, x])
  {
    ParseOfLines([x, x]);
  }
}
