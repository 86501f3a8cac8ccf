/**
 * The two pieces of Python string handling the rules engine relies on:
 * `sep.join(parts)` and `str.title()`.
 */
module Text {

  /** `sep.join(parts)`. */
  function Join(parts: seq<string>, sep: string): string
  {
    if |parts| == 0 then ""
    else if |parts| == 1 then parts[0]
    else parts[0] + sep + Join(parts[1..], sep)
  }

  /** A join of non-empty parts is empty exactly when there are no parts. */
  lemma JoinEmptyIff(parts: seq<string>, sep: string)
    requires forall i :: 0 <= i < |parts| ==> parts[i] != ""
    ensures Join(parts, sep) == "" <==> parts == []
  {
    if |parts| > 1 {
      assert |Join(parts, sep)| >= |parts[0]|;
    }
  }

  /** A join starts with the first part. */
  lemma {:induction false} JoinStartsWithFirst(parts: seq<string>, sep: string)
    requires parts != []
    ensures |Join(parts, sep)| >= |parts[0]|
    ensures Join(parts, sep)[..|parts[0]|] == parts[0]
  {
    if |parts| > 1 {
      var rest := sep + Join(parts[1..], sep);
      assert Join(parts, sep) == parts[0] + rest;
      assert (parts[0] + rest)[..|parts[0]|] == parts[0];
    }
  }

  /** Python treats ASCII letters as the cased characters of these names. */
  predicate IsCased(c: char)
  {
    'a' <= c <= 'z' || 'A' <= c <= 'Z'
  }

  function Upper(c: char): (u: char)
    ensures IsCased(u) == IsCased(c)
  {
    if 'a' <= c <= 'z' then (c as int - 32) as char else c
  }

  function Lower(c: char): (l: char)
    ensures IsCased(l) == IsCased(c)
  {
    if 'A' <= c <= 'Z' then (c as int + 32) as char else c
  }

  /**
   * `str.title()` restricted to ASCII: a cased character that follows a cased
   * character is lower-cased, every other cased character is upper-cased, and
   * everything else is kept. `afterCased` says whether the character just
   * before `s` was cased.
   */
  function TitleFrom(s: string, afterCased: bool): (r: string)
    ensures |r| == |s|
  {
    if s == [] then []
    else [if afterCased then Lower(s[0]) else Upper(s[0])] + TitleFrom(s[1..], IsCased(s[0]))
  }

  function Title(s: string): string
  {
    TitleFrom(s, false)
  }

  /** Whether the character that ends `a` is cased (`afterCased` when `a` is empty). */
  function EndsCased(a: string, afterCased: bool): bool
  {
    if a == [] then afterCased else IsCased(a[|a| - 1])
  }

  /** Title-casing a concatenation works piecewise, carrying the cased flag across. */
  lemma {:induction false} TitleFromConcat(a: string, b: string, afterCased: bool)
    ensures TitleFrom(a + b, afterCased) == TitleFrom(a, afterCased) + TitleFrom(b, EndsCased(a, afterCased))
  {
    if a == [] {
      assert a + b == b;
    } else {
      var head := if afterCased then Lower(a[0]) else Upper(a[0]);
      assert (a + b)[0] == a[0] && (a + b)[1..] == a[1..] + b;
      assert TitleFrom(a + b, afterCased) == [head] + TitleFrom(a[1..] + b, IsCased(a[0]));
      TitleFromConcat(a[1..], b, IsCased(a[0]));
      assert EndsCased(a[1..], IsCased(a[0])) == EndsCased(a, afterCased);
      assert TitleFrom(a, afterCased) == [head] + TitleFrom(a[1..], IsCased(a[0]));
    }
  }

  /** Each part title-cased on its own. */
  function TitleEach(parts: seq<string>): (r: seq<string>)
    ensures |r| == |parts|
    ensures forall i :: 0 <= i < |parts| ==> r[i] == Title(parts[i])
  {
    seq(|parts|, i requires 0 <= i < |parts| => Title(parts[i]))
  }

  /** Title-casing each part and then joining with ", " is what `", ".join(parts).title()` gives. */
  lemma {:induction false} TitleOfCommaJoin(parts: seq<string>)
    ensures Title(Join(parts, ", ")) == Join(TitleEach(parts), ", ")
  {
    var titled := TitleEach(parts);
    if |parts| > 1 {
      var rest := Join(parts[1..], ", ");
      assert titled[1..] == TitleEach(parts[1..]);
      TitleOfCommaJoin(parts[1..]);
      calc {
        Title(Join(parts, ", "));
        Title(parts[0] + ", " + rest);
        { assert parts[0] + ", " + rest == parts[0] + (", " + rest); }
        TitleFrom(parts[0] + (", " + rest), false);
        { TitleFromConcat(parts[0], ", " + rest, false); }
        Title(parts[0]) + TitleFrom(", " + rest, EndsCased(parts[0], false));
        { assert (", " + rest)[1..] == " " + rest;
          assert (" " + rest)[1..] == rest; }
        Title(parts[0]) + ", " + Title(rest);
        Join(titled, ", ");
      }
    }
  }
}
