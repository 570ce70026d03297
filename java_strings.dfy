/** Java's `String.split` for a one-character separator that is not a
    regular-expression metacharacter (such as "," or "@"), with the default
    limit 0. Java looks for the separator with `indexOf`; if it never occurs
    the result is the whole string as its only element (so "" splits to
    [""]); otherwise the string is cut at every occurrence and trailing empty
    fields are dropped (so "t@" splits to ["t"] and "@" to []). */
module JavaStrings {

  /** `s.indexOf(c)`: the first position of `c` in `s`. */
  function IndexOf(s: string, c: char): (k: nat)
    requires c in s
    ensures k < |s| && s[k] == c && c !in s[..k]
  {
    if s[0] == c then 0 else 1 + IndexOf(s[1..], c)
  }

  /** The fields of `s` between occurrences of `sep`, empty fields included:
      there is at least one, and none contains `sep`. */
  function SplitAll(s: string, sep: char): (fields: seq<string>)
    ensures |fields| > 0
    ensures forall i :: 0 <= i < |fields| ==> sep !in fields[i]
    decreases |s|
  {
    if sep !in s then [s]
    else
      var k := IndexOf(s, sep);
      [s[..k]] + SplitAll(s[k + 1..], sep)
  }

  /** The fields glued back together with `sep` between neighbours. */
  function Join(fields: seq<string>, sep: char): string
    decreases |fields|
  {
    if |fields| == 0 then ""
    else if |fields| == 1 then fields[0]
    else fields[0] + [sep] + Join(fields[1..], sep)
  }

  /** The longest prefix of `fields` that does not end in an empty field. */
  function DropTrailingEmpty(fields: seq<string>): (kept: seq<string>)
    ensures kept <= fields
    ensures forall i :: |kept| <= i < |fields| ==> fields[i] == ""
    ensures |kept| > 0 ==> kept[|kept| - 1] != ""
    decreases |fields|
  {
    if |fields| > 0 && fields[|fields| - 1] == "" then
      DropTrailingEmpty(fields[..|fields| - 1])
    else
      fields
  }

  /** `s.split(sep)` in Java: the string itself when `sep` does not occur,
      otherwise all its fields less exactly the trailing empty ones. */
  function JavaSplit(s: string, sep: char): (parts: seq<string>)
    ensures sep !in s ==> parts == [s]
    ensures sep in s ==> parts <= SplitAll(s, sep)
    ensures sep in s ==> forall f :: f in SplitAll(s, sep)[|parts|..] ==> f == ""
    ensures sep in s && |parts| > 0 ==> |parts[|parts| - 1]| > 0
    ensures forall i :: 0 <= i < |parts| ==> sep !in parts[i]
  {
    if sep !in s then [s] else DropTrailingEmpty(SplitAll(s, sep))
  }

  /** Joining the fields of `s` gives `s` back. */
  lemma {:induction false} JoinSplitAll(s: string, sep: char)
    ensures Join(SplitAll(s, sep), sep) == s
    decreases |s|
  {
    if sep in s {
      var k := IndexOf(s, sep);
      var rest := SplitAll(s[k + 1..], sep);
      JoinSplitAll(s[k + 1..], sep);
      assert ([s[..k]] + rest)[1..] == rest;
      assert s == s[..k] + [sep] + s[k + 1..];
    }
  }

  /** Cutting at the first separator: the part before it is the first field
      and the rest splits on its own. */
  lemma CutAtFirst(a: string, b: string, sep: char)
    requires sep !in a
    ensures SplitAll(a + [sep] + b, sep) == [a] + SplitAll(b, sep)
  {
    var s := a + [sep] + b;
    assert s[|a|] == sep;
    var k := IndexOf(s, sep);
    assert s[..|a|] == a;
    assert s[..k] == a;
    assert s[k + 1..] == b;
  }

  /** Splitting fields that were joined gives the fields back, provided no
      field contains the separator. */
  lemma {:induction false} SplitAllJoin(fields: seq<string>, sep: char)
    requires |fields| > 0
    requires forall i :: 0 <= i < |fields| ==> sep !in fields[i]
    ensures SplitAll(Join(fields, sep), sep) == fields
    decreases |fields|
  {
    if |fields| > 1 {
      SplitAllJoin(fields[1..], sep);
      CutAtFirst(fields[0], Join(fields[1..], sep), sep);
      assert fields == [fields[0]] + fields[1..];
    }
  }
}
