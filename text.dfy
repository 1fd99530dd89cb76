/** The few java.lang.String operations the tracker relies on: `trim`,
    case folding for `equalsIgnoreCase`/`toLowerCase`, `split` with a
    one-character separator, `replace` of one character, `contains`, and
    `hashCode`. */
module Text {

  /** `s.trim().isEmpty()`: `trim` strips every character up to U+0020. */
  predicate IsBlank(s: string) {
    forall i :: 0 <= i < |s| ==> s[i] <= ' '
  }

  /** Drops the leading characters up to U+0020. */
  function TrimStart(s: string): (r: string)
    ensures |r| <= |s| && r == s[|s| - |r|..]
    ensures r == [] || r[0] > ' '
    ensures IsBlank(s[..|s| - |r|])
  {
    if |s| > 0 && s[0] <= ' ' then
      var r := TrimStart(s[1..]);
      assert s[..|s| - |r|] == [s[0]] + s[1..][..|s| - 1 - |r|];
      r
    else s
  }

  /** Drops the trailing characters up to U+0020. */
  function TrimEnd(s: string): (r: string)
    ensures |r| <= |s| && r == s[..|r|]
    ensures r == [] || r[|r| - 1] > ' '
    ensures IsBlank(s[|r|..])
  {
    if |s| > 0 && s[|s| - 1] <= ' ' then
      var r := TrimEnd(s[..|s| - 1]);
      assert s[|r|..] == s[..|s| - 1][|r|..] + [s[|s| - 1]];
      r
    else s
  }

  /** `String.trim()`: blank characters dropped at both ends. What is left
      starts and ends with a character above U+0020. */
  function Trim(s: string): (r: string)
    ensures |r| <= |s|
    ensures r == [] || (r[0] > ' ' && r[|r| - 1] > ' ')
  {
    TrimEnd(TrimStart(s))
  }

  /** Trimming leaves nothing exactly when the string is blank, and
      otherwise leaves a slice of it with blanks only around it. */
  lemma TrimEmptyIffBlank(s: string)
    ensures Trim(s) == [] <==> IsBlank(s)
    ensures exists i, j :: 0 <= i <= j <= |s| && Trim(s) == s[i..j] && IsBlank(s[..i]) && IsBlank(s[j..])
  {
    var t := TrimStart(s);
    var r := TrimEnd(t);
    var i := |s| - |t|;
    assert t == s[i..];
    assert r == t[..|r|];
    assert r == s[i..i + |r|];
    assert s[i + |r|..] == t[|r|..];
    if r == [] {
      forall k | 0 <= k < |s| ensures s[k] <= ' ' {
        assert k < i;
        assert s[..i][k] == s[k];
      }
    } else {
      assert r[0] > ' ' && r[0] == s[i];
    }
  }

  /** Character.toLowerCase on the letters of ASCII and Latin-1. */
  function Lower(c: char): (r: char)
    ensures ('A' <= c <= 'Z') ==> 'a' <= r <= 'z'
    ensures !('A' <= c <= 'Z') && !('À' <= c <= 'Þ') ==> r == c
  {
    if 'A' <= c <= 'Z' || ('À' <= c <= 'Þ' && c != '×') then
      (c as int + 32) as char
    else c
  }

  /** String.toLowerCase. */
  function ToLower(s: string): (r: string)
    ensures |r| == |s|
    ensures forall i :: 0 <= i < |s| ==> r[i] == Lower(s[i])
  {
    seq(|s|, i requires 0 <= i < |s| => Lower(s[i]))
  }

  /** String.equalsIgnoreCase: same length and the same characters once both
      are folded to lower case. */
  predicate EqualsIgnoreCase(a: string, b: string) {
    ToLower(a) == ToLower(b)
  }

  /** Equality ignoring case is an equivalence that contains equality and
      forces equal lengths. */
  lemma EqualsIgnoreCaseFacts(a: string, b: string, c: string)
    ensures EqualsIgnoreCase(a, a)
    ensures EqualsIgnoreCase(a, b) ==> EqualsIgnoreCase(b, a) && |a| == |b|
    ensures EqualsIgnoreCase(a, b) && EqualsIgnoreCase(b, c) ==> EqualsIgnoreCase(a, c)
  {
    if EqualsIgnoreCase(a, b) {
      assert |ToLower(a)| == |a| && |ToLower(b)| == |b|;
    }
  }

  /** The position of the first occurrence of `c`. */
  function IndexOf(s: string, c: char): (i: nat)
    requires c in s
    ensures i < |s| && s[i] == c && c !in s[..i]
  {
    if s[0] == c then 0
    else
      var i := 1 + IndexOf(s[1..], c);
      assert s[..i] == [s[0]] + s[1..][..i - 1];
      i
  }

  /** Every piece of `s` between occurrences of `sep`, empty ones included. */
  function Pieces(s: string, sep: char): (r: seq<string>)
    ensures |r| >= 1
    ensures forall k :: 0 <= k < |r| ==> sep !in r[k]
    decreases |s|
  {
    if sep !in s then [s]
    else
      var i := IndexOf(s, sep);
      [s[..i]] + Pieces(s[i + 1..], sep)
  }

  /** String.join with a one-character separator. */
  function Join(ps: seq<string>, sep: char): string
    requires |ps| >= 1
  {
    if |ps| == 1 then ps[0] else ps[0] + [sep] + Join(ps[1..], sep)
  }

  /** Joining the pieces back with the separator gives the original string. */
  lemma {:induction false} JoinPieces(s: string, sep: char)
    ensures Join(Pieces(s, sep), sep) == s
    decreases |s|
  {
    if sep in s {
      var i := IndexOf(s, sep);
      var rest := Pieces(s[i + 1..], sep);
      JoinPieces(s[i + 1..], sep);
      assert Pieces(s, sep) == [s[..i]] + rest;
      assert Join(Pieces(s, sep), sep) == s[..i] + [sep] + Join(rest, sep);
      assert s == s[..i] + [sep] + s[i + 1..];
    }
  }

  /** Splitting a join of separator-free pieces gives the pieces back. */
  lemma {:induction false} PiecesOfJoin(ps: seq<string>, sep: char)
    requires |ps| >= 1
    requires forall k :: 0 <= k < |ps| ==> sep !in ps[k]
    ensures Pieces(Join(ps, sep), sep) == ps
  {
    if |ps| > 1 {
      PiecesOfJoin(ps[1..], sep);
      var s, i := Join(ps, sep), |ps[0]|;
      assert s == ps[0] + [sep] + Join(ps[1..], sep);
      assert s[..i] == ps[0] && s[i] == sep && s[i + 1..] == Join(ps[1..], sep);
      PiecesAt(s, sep, i);
      assert ps == [ps[0]] + ps[1..];
    }
  }

  /** Removes the empty strings at the end, as `split` with limit 0 does. */
  function DropTrailingEmpty(ps: seq<string>): (r: seq<string>)
    ensures |r| <= |ps| && r == ps[..|r|]
    ensures r == [] || r[|r| - 1] != ""
    ensures forall k :: |r| <= k < |ps| ==> ps[k] == ""
  {
    if |ps| > 0 && ps[|ps| - 1] == "" then DropTrailingEmpty(ps[..|ps| - 1]) else ps
  }

  /** String.split with a one-character literal separator: the whole string
      when the separator does not occur, otherwise the pieces with the empty
      ones at the end removed. */
  function Split(s: string, sep: char): (r: seq<string>)
    ensures sep !in s ==> r == [s]
    ensures sep in s ==> |r| <= |Pieces(s, sep)| && r == Pieces(s, sep)[..|r|]
    ensures forall k :: 0 <= k < |r| ==> sep !in r[k]
    ensures r == [] || r[|r| - 1] != "" || r == [""]
  {
    if sep !in s then [s] else DropTrailingEmpty(Pieces(s, sep))
  }

  /** Every piece is empty exactly when the string is made of separators
      only. */
  lemma {:induction false} PiecesAllEmpty(t: string, sep: char)
    ensures (forall k :: 0 <= k < |Pieces(t, sep)| ==> Pieces(t, sep)[k] == "") <==>
            (forall j :: 0 <= j < |t| ==> t[j] == sep)
    decreases |t|
  {
    if sep in t {
      var i := IndexOf(t, sep);
      var rest := t[i + 1..];
      PiecesAllEmpty(rest, sep);
      var ps := Pieces(t, sep);
      assert ps == [t[..i]] + Pieces(rest, sep);
      if forall j :: 0 <= j < |t| ==> t[j] == sep {
        assert i == 0;
        assert forall j :: 0 <= j < |rest| ==> rest[j] == t[j + 1];
      }
      if forall k :: 0 <= k < |ps| ==> ps[k] == "" {
        assert ps[0] == t[..i] == "";
        assert forall k :: 0 <= k < |Pieces(rest, sep)| ==> Pieces(rest, sep)[k] == ps[k + 1];
        forall j | 0 <= j < |t| ensures t[j] == sep {
          if j > 0 {
            assert t[j] == rest[j - 1];
          }
        }
      }
    } else if |t| > 0 {
      assert t[0] in t && Pieces(t, sep)[0] == t != "";
    }
  }

  /** Dropping the trailing empty strings leaves more than one exactly
      when some string after the first is not empty. */
  lemma DropTrailingMany(ps: seq<string>)
    ensures |DropTrailingEmpty(ps)| > 1 <==> exists k :: 1 <= k < |ps| && ps[k] != ""
  {
    var r := DropTrailingEmpty(ps);
    if |r| > 1 {
      assert ps[|r| - 1] == r[|r| - 1];
    }
  }

  /** With its first separator at `i0`, `split` gives more than one piece
      exactly when some piece after that separator is not empty. */
  lemma SplitManyPieces(s: string, sep: char, i0: nat)
    requires i0 < |s| && s[i0] == sep && sep !in s[..i0]
    ensures var tail := Pieces(s[i0 + 1..], sep);
      |Split(s, sep)| > 1 <==> exists k :: 0 <= k < |tail| && tail[k] != ""
  {
    PiecesAt(s, sep, i0);
    var ps := Pieces(s, sep);
    var tail := Pieces(s[i0 + 1..], sep);
    assert Split(s, sep) == DropTrailingEmpty(ps) by {
      assert s[i0] in s;
    }
    DropTrailingMany(ps);
    NonEmptyAfterHead(ps, tail);
  }

  /** In a list made of a head and a tail, a string after the head is not
      empty exactly when one in the tail is not. */
  lemma NonEmptyAfterHead(ps: seq<string>, tail: seq<string>)
    requires |ps| == |tail| + 1 && ps[1..] == tail
    ensures (exists k :: 1 <= k < |ps| && ps[k] != "") <==> exists k :: 0 <= k < |tail| && tail[k] != ""
  {
    if exists k :: 1 <= k < |ps| && ps[k] != "" {
      var k :| 1 <= k < |ps| && ps[k] != "";
      assert tail[k - 1] == ps[k];
    }
    if exists k :: 0 <= k < |tail| && tail[k] != "" {
      var k :| 0 <= k < |tail| && tail[k] != "";
      assert ps[k + 1] == tail[k];
    }
  }

  /** With its first separator at `i0`, a character other than a separator
      follows that separator exactly when it follows some separator. */
  lemma AfterFirstSeparator(s: string, sep: char, i0: nat)
    requires i0 < |s| && s[i0] == sep && sep !in s[..i0]
    ensures var rest := s[i0 + 1..];
      (exists j :: 0 <= j < |rest| && rest[j] != sep) <==>
      exists i, j :: 0 <= i < j < |s| && s[i] == sep && s[j] != sep
  {
    var rest := s[i0 + 1..];
    if exists j :: 0 <= j < |rest| && rest[j] != sep {
      var j :| 0 <= j < |rest| && rest[j] != sep;
      assert s[i0] == sep && s[i0 + 1 + j] != sep;
    }
    if exists i, j :: 0 <= i < j < |s| && s[i] == sep && s[j] != sep {
      var i, j :| 0 <= i < j < |s| && s[i] == sep && s[j] != sep;
      assert i0 <= i by {
        assert forall m :: 0 <= m < i0 ==> s[m] == s[..i0][m];
      }
      assert 0 <= j - i0 - 1 < |rest| && rest[j - i0 - 1] != sep;
    }
  }

  /** `split` gives more than one piece exactly when some separator is
      followed, somewhere later, by a character that is not one. */
  lemma SplitMany(s: string, sep: char)
    ensures |Split(s, sep)| > 1 <==> exists i, j :: 0 <= i < j < |s| && s[i] == sep && s[j] != sep
  {
    if sep in s {
      var i0 := IndexOf(s, sep);
      SplitManyPieces(s, sep, i0);
      PiecesAllEmpty(s[i0 + 1..], sep);
      AfterFirstSeparator(s, sep, i0);
    }
  }

  /** The first piece runs up to the first separator. */
  lemma PiecesAt(s: string, sep: char, i: nat)
    requires i < |s| && s[i] == sep && sep !in s[..i]
    ensures Pieces(s, sep) == [s[..i]] + Pieces(s[i + 1..], sep)
  {
    var k := IndexOf(s, sep);
    if k < i {
      assert false;
    } else if i < k {
      assert false;
    }
  }

  /** A final line break adds no piece: one line followed by a newline
      splits into one line. */
  lemma SplitDropsFinalNewline()
    ensures Split("a;b\n", '\n') == ["a;b"]
  {
    var s := "a;b\n";
    assert s[..3] == "a;b" && s[4..] == "";
    assert '\n' !in s[..3];
    PiecesAt(s, '\n', 3);
    assert Pieces(s, '\n') == ["a;b", ""];
  }

  /** A field left empty at the end of a row is dropped, and a row of
      separators alone has no fields, while the empty string is one empty
      field. */
  lemma SplitDropsEmptyLastField()
    ensures Split("x;", ';') == ["x"]
    ensures Split(";", ';') == []
    ensures Split("", ';') == [""]
  {
    var s := "x;";
    assert s[..1] == "x" && s[2..] == "";
    assert ';' !in s[..1];
    PiecesAt(s, ';', 1);
    assert Pieces(s, ';') == ["x", ""];
    var t := ";";
    assert t[..0] == "" && t[1..] == "";
    PiecesAt(t, ';', 0);
    assert Pieces(t, ';') == ["", ""];
  }

  /** String.replace of one character by another, everywhere. */
  function Replace(s: string, from: char, to: char): (r: string)
    ensures |r| == |s|
    ensures from != to ==> from !in r
    ensures forall i :: 0 <= i < |s| && s[i] != from ==> r[i] == s[i]
  {
    seq(|s|, i requires 0 <= i < |s| => if s[i] == from then to else s[i])
  }

  /** Java's 32-bit int wrap-around. */
  function Wrap32(x: int): (r: int)
    ensures -0x8000_0000 <= r < 0x8000_0000
    ensures -0x8000_0000 <= x < 0x8000_0000 ==> r == x
  {
    (x + 0x8000_0000) % 0x1_0000_0000 - 0x8000_0000
  }

  /** String.hashCode: s[0]*31^(n-1) + ... + s[n-1], in 32-bit arithmetic. */
  function StringHash(s: string): (h: int)
    ensures -0x8000_0000 <= h < 0x8000_0000
  {
    if s == [] then 0 else Wrap32(31 * StringHash(s[..|s| - 1]) + s[|s| - 1] as int)
  }
}
