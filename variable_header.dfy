/**
  The tab-separated header line of a tabular file, as the handle builds it
  from the file's variables, and the splitting that reads the names back.
 */
module VariableHeader {
  import opened StorageTypes
  import opened JavaLang

  /** The text each variable contributes: its name, or "null" when it has none. */
  function Names(vars: seq<DataVariable>): (names: seq<string>)
    ensures |names| == |vars|
    ensures forall i :: 0 <= i < |vars| ==> names[i] == JavaString(vars[i].name)
  {
    if |vars| == 0 then [] else Names(vars[..|vars| - 1]) + [JavaString(vars[|vars| - 1].name)]
  }

  /** The names separated by single tabs. */
  function Join(names: seq<string>): string
    requires |names| > 0
  {
    if |names| == 1 then names[0] else names[0] + "\t" + Join(names[1..])
  }

  /**
    The header a variable list yields. An empty list still gets its newline,
    appended to the initial null: "null\n".
   */
  function HeaderLine(vars: seq<DataVariable>): string
  {
    if |vars| == 0 then "null\n" else Join(Names(vars)) + "\n"
  }

  /** Cuts a line at every tab. */
  function Split(s: string): (fields: seq<string>)
    ensures |fields| > 0
  {
    if |s| == 0 then [""]
    else if s[0] == '\t' then [""] + Split(s[1..])
    else
      var rest := Split(s[1..]);
      [[s[0]] + rest[0]] + rest[1..]
  }

  predicate NoTab(s: string)
  {
    forall i :: 0 <= i < |s| ==> s[i] != '\t'
  }

  /** Appending a name extends the joined line by a tab and that name. */
  lemma {:induction false} JoinSnoc(names: seq<string>, last: string)
    requires |names| > 0
    ensures Join(names + [last]) == Join(names) + "\t" + last
  {
    if |names| > 1 {
      assert (names + [last])[1..] == names[1..] + [last];
      JoinSnoc(names[1..], last);
    }
  }

  lemma {:induction false} SplitNoTab(a: string)
    requires NoTab(a)
    ensures Split(a) == [a]
  {
    if |a| > 0 {
      SplitNoTab(a[1..]);
      assert [a[0]] + a[1..] == a;
    }
  }

  lemma {:induction false} SplitAtFirstTab(a: string, t: string)
    requires NoTab(a)
    ensures Split(a + "\t" + t) == [a] + Split(t)
  {
    var s := a + "\t" + t;
    if |a| == 0 {
      assert s[1..] == t;
    } else {
      assert s[1..] == a[1..] + "\t" + t;
      SplitAtFirstTab(a[1..], t);
      assert [a[0]] + a[1..] == a;
    }
  }

  /** Splitting a joined line gives back the names, provided none holds a tab. */
  lemma {:induction false} SplitJoin(names: seq<string>)
    requires |names| > 0
    requires forall i :: 0 <= i < |names| ==> NoTab(names[i])
    ensures Split(Join(names)) == names
  {
    if |names| == 1 {
      SplitNoTab(names[0]);
    } else {
      SplitAtFirstTab(names[0], Join(names[1..]));
      SplitJoin(names[1..]);
    }
  }

  /**
    A non-empty header line is the variables' names, in order, each followed by
    a tab except the last, which is followed by the newline.
   */
  lemma HeaderLineRoundTrip(vars: seq<DataVariable>)
    requires |vars| > 0
    requires forall i :: 0 <= i < |vars| ==> NoTab(JavaString(vars[i].name))
    ensures var h := HeaderLine(vars);
      |h| > 0 && h[|h| - 1] == '\n' && Split(h[..|h| - 1]) == Names(vars)
  {
    var h := HeaderLine(vars);
    assert h[..|h| - 1] == Join(Names(vars));
    SplitJoin(Names(vars));
  }

  /** Two variables both named "Random" give "Random\tRandom\n". */
  lemma RepeatedVariableHeader()
    ensures var v := DataVariable(Some("Random"));
      HeaderLine([v, v]) == "Random\tRandom\n"
  {
  }
}
