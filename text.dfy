/**
  Java string helpers the build steps rely on: `String.trim()`,
  Jenkins' `Util.fixEmptyAndTrim`, and `String.split(" ")` applied to the
  space-joined lists that the list-valued settings store.
 */
module Text {

  /** A Java reference that may be null. */
  datatype Option<T> = None | Some(value: T)

  /** `String.trim()` removes every character at or below U+0020. */
  predicate IsTrimmable(c: char) {
    c <= ' '
  }

  /** A string that `trim()` leaves unchanged and that is not empty. */
  predicate IsTrimmed(s: string) {
    s != [] && !IsTrimmable(s[0]) && !IsTrimmable(s[|s| - 1])
  }

  /** The number of trimmable characters at the front of `s`. */
  function LeadingTrimmable(s: string): (n: nat)
    ensures n <= |s|
    ensures forall i :: 0 <= i < n ==> IsTrimmable(s[i])
    ensures n < |s| ==> !IsTrimmable(s[n])
  {
    if s != [] && IsTrimmable(s[0]) then 1 + LeadingTrimmable(s[1..]) else 0
  }

  /** The number of trimmable characters at the back of `s`. */
  function TrailingTrimmable(s: string): (n: nat)
    ensures n <= |s|
    ensures forall i :: |s| - n <= i < |s| ==> IsTrimmable(s[i])
    ensures n < |s| ==> !IsTrimmable(s[|s| - 1 - n])
  {
    if s != [] && IsTrimmable(s[|s| - 1]) then 1 + TrailingTrimmable(s[..|s| - 1]) else 0
  }

  /** Java's `String.trim()`. */
  function Trim(s: string): (r: string)
    ensures LeadingTrimmable(s) + |r| <= |s|
    ensures r == s[LeadingTrimmable(s)..LeadingTrimmable(s) + |r|]
    ensures forall k :: LeadingTrimmable(s) + |r| <= k < |s| ==> IsTrimmable(s[k])
    ensures r == [] <==> forall k :: 0 <= k < |s| ==> IsTrimmable(s[k])
    ensures r != [] ==> IsTrimmed(r)
  {
    var rest := s[LeadingTrimmable(s)..];
    rest[..|rest| - TrailingTrimmable(rest)]
  }

  /**
    Jenkins' `Util.fixEmptyAndTrim`: null stays null, otherwise the string is
    trimmed and an empty result becomes null.
   */
  function FixEmptyAndTrim(v: Option<string>): (r: Option<string>)
    ensures r.Some? <==> v.Some? && exists k :: 0 <= k < |v.value| && !IsTrimmable(v.value[k])
    ensures r.Some? ==> IsTrimmed(r.value) && r.value == Trim(v.value)
  {
    match v
    case None => None
    case Some(s) => if Trim(s) == [] then None else Some(Trim(s))
  }

  /** Trimming a trimmed string changes nothing. */
  lemma TrimTrimmed(s: string)
    requires IsTrimmed(s)
    ensures Trim(s) == s
  {
    assert LeadingTrimmable(s) == 0;
    assert TrailingTrimmable(s) == 0;
  }

  /**
    A value a setter stored is a fixed point of `fixEmptyAndTrim`: feeding a
    getter's result back into the setter changes nothing.
   */
  lemma FixEmptyAndTrimIdempotent(v: Option<string>)
    ensures FixEmptyAndTrim(FixEmptyAndTrim(v)) == FixEmptyAndTrim(v)
  {
    var r := FixEmptyAndTrim(v);
    if r.Some? {
      TrimTrimmed(r.value);
    }
  }

  /** What a setter that uses `fixEmptyAndTrim` may leave in its field. */
  predicate IsStoredScalar(v: Option<string>) {
    v.None? || IsTrimmed(v.value)
  }

  /**
    The pieces of `s` between single spaces, empty pieces included (the
    result of splitting on every space, before Java drops trailing empty
    strings).
   */
  function Pieces(s: string): (r: seq<string>)
    ensures |r| >= 1
  {
    if s == [] then [""]
    else if s[0] == ' ' then [""] + Pieces(s[1..])
    else
      var p := Pieces(s[1..]);
      [[s[0]] + p[0]] + p[1..]
  }

  /** Drops the empty strings at the end, as `String.split` with limit 0 does. */
  function DropTrailingEmpty(xs: seq<string>): (r: seq<string>)
    ensures |r| <= |xs| && r == xs[..|r|]
    ensures r == [] || r[|r| - 1] != ""
    ensures forall i :: |r| <= i < |xs| ==> xs[i] == ""
  {
    if xs == [] then []
    else if xs[|xs| - 1] == "" then DropTrailingEmpty(xs[..|xs| - 1])
    else xs
  }

  /**
    Java's `s.split(" ")`: a string without a space is returned whole (even
    the empty string); otherwise the pieces between spaces, with trailing
    empty pieces removed.
   */
  function Split(s: string): (r: seq<string>)
    ensures ' ' !in s ==> r == [s]
    ensures forall p :: p in r ==> ' ' !in p
    ensures ' ' in s ==> r == [] || r[|r| - 1] != ""
  {
    if ' ' !in s then [s]
    else
      PiecesSpaceFree(s);
      DropTrailingEmpty(Pieces(s))
  }

  /**
    `split(" ")` on Java's edge cases: a lone space gives no pieces, the empty
    string one empty piece, and leading or doubled spaces keep their empty
    pieces while trailing ones are dropped.
   */
  lemma SplitEdgeCases()
    ensures Split(" ") == []
    ensures Split("") == [""]
    ensures Split(" a") == ["", "a"]
    ensures Split("a  b ") == ["a", "", "b"]
  {
    var sp, b, sb, ssb, w := " ", "b ", " b ", "  b ", "a  b ";
    assert sp[0] == ' ' && sp[1..] == "";
    assert Pieces(sp) == ["", ""];
    assert b[0] == 'b' && b[1..] == sp;
    assert ['b'] + "" == "b";
    assert Pieces(b) == ["b", ""];
    assert sb[0] == ' ' && sb[1..] == b;
    assert ssb[0] == ' ' && ssb[1..] == sb;
    assert Pieces(sb) == ["", "b", ""];
    assert Pieces(ssb) == ["", "", "b", ""];
    assert w[0] == 'a' && w[1..] == ssb;
    assert ['a'] + "" == "a";
    assert Pieces(w) == ["a", "", "b", ""];
    assert DropTrailingEmpty(Pieces(w)) == ["a", "", "b"];
    var a := " a";
    assert a[0] == ' ' && a[1..] == "a";
    PiecesOfWord("a");
    assert Pieces(a) == ["", "a"];
  }

  /** Joins items with single spaces, the inverse of `Split` on normalized lists. */
  function Join(items: seq<string>): string {
    if |items| == 0 then ""
    else if |items| == 1 then items[0]
    else items[0] + " " + Join(items[1..])
  }

  /** A non-empty sequence of non-empty, space-free items. */
  predicate NormalizedItems(items: seq<string>) {
    |items| >= 1 && forall i :: 0 <= i < |items| ==> items[i] != "" && ' ' !in items[i]
  }

  /**
    A non-empty string of items separated by single spaces, with no space at
    either end: the shape in which the list-valued settings are stored.
   */
  predicate IsListString(s: string) {
    && s != []
    && s[0] != ' '
    && s[|s| - 1] != ' '
    && forall i :: 0 <= i < |s| - 1 ==> s[i] == ' ' ==> s[i + 1] != ' '
  }

  /** What a list setter may leave in its field: absent, or a normalized list. */
  predicate IsStoredList(v: Option<string>) {
    v.None? || IsListString(v.value)
  }

  /** The items a stored list field is split into (none when absent). */
  function Items(v: Option<string>): seq<string> {
    if v.None? then [] else Split(v.value)
  }

  lemma {:induction false} PiecesSpaceFree(s: string)
    ensures forall i :: 0 <= i < |Pieces(s)| ==> ' ' !in Pieces(s)[i]
  {
    if s != [] {
      PiecesSpaceFree(s[1..]);
    }
  }

  /** A string without spaces is a single piece. */
  lemma {:induction false} PiecesOfWord(w: string)
    requires ' ' !in w
    ensures Pieces(w) == [w]
  {
    if w != [] {
      assert ' ' !in w[1..] by {
        forall i | 0 <= i < |w[1..]| ensures w[1..][i] != ' ' {
          assert w[1..][i] == w[i + 1];
        }
      }
      PiecesOfWord(w[1..]);
      assert [w[0]] + w[1..] == w;
    }
  }

  /** Splitting at a space splits the pieces. */
  lemma {:induction false} PiecesAppend(a: string, b: string)
    ensures Pieces(a + [' '] + b) == Pieces(a) + Pieces(b)
  {
    if a == [] {
      assert a + [' '] + b == [' '] + b;
      assert ([' '] + b)[1..] == b;
    } else {
      var s := a + [' '] + b;
      assert s[0] == a[0];
      assert s[1..] == a[1..] + [' '] + b;
      PiecesAppend(a[1..], b);
    }
  }

  /** Joining the pieces of any string gives the string back. */
  lemma {:induction false} JoinPieces(s: string)
    ensures Join(Pieces(s)) == s
  {
    if s == [] {
    } else if s[0] == ' ' {
      JoinPieces(s[1..]);
      var p := Pieces(s[1..]);
      assert Pieces(s) == [""] + p;
      assert Join(Pieces(s)) == "" + " " + Join(p);
      assert [s[0]] + s[1..] == s;
    } else {
      JoinPieces(s[1..]);
      var p := Pieces(s[1..]);
      var q := Pieces(s);
      assert q == [[s[0]] + p[0]] + p[1..];
      if |p| == 1 {
        assert Join(q) == [s[0]] + p[0] == [s[0]] + Join(p);
      } else {
        assert q[1..] == p[1..];
        assert Join(q) == ([s[0]] + p[0]) + " " + Join(p[1..]);
        assert Join(p) == p[0] + " " + Join(p[1..]);
      }
      assert [s[0]] + s[1..] == s;
    }
  }

  /** Splitting at spaces undoes joining with spaces, when no item holds a space. */
  lemma {:induction false} PiecesOfJoin(items: seq<string>)
    requires |items| >= 1
    requires forall i :: 0 <= i < |items| ==> ' ' !in items[i]
    ensures Pieces(Join(items)) == items
  {
    if |items| == 1 {
      PiecesOfWord(items[0]);
    } else {
      PiecesOfJoin(items[1..]);
      PiecesOfWord(items[0]);
      PiecesAppend(items[0], Join(items[1..]));
      assert items[0] + " " + Join(items[1..]) == items[0] + [' '] + Join(items[1..]);
      assert [items[0]] + items[1..] == items;
    }
  }

  /**
    Every piece of a string after the first is non-empty when the string has
    no two spaces in a row and does not end with a space.
   */
  lemma {:induction false} LaterPiecesNonEmpty(s: string)
    requires s == [] || s[|s| - 1] != ' '
    requires forall i :: 0 <= i < |s| - 1 ==> s[i] == ' ' ==> s[i + 1] != ' '
    ensures forall i :: 1 <= i < |Pieces(s)| ==> Pieces(s)[i] != ""
  {
    if s != [] {
      var t := s[1..];
      assert forall i :: 0 <= i < |t| - 1 ==> t[i] == ' ' ==> t[i + 1] != ' ' by {
        forall i | 0 <= i < |t| - 1 && t[i] == ' ' ensures t[i + 1] != ' ' {
          assert t[i] == s[i + 1] && t[i + 1] == s[i + 2];
        }
      }
      LaterPiecesNonEmpty(t);
      if s[0] == ' ' {
        assert t != [] && t[0] != ' ';
        var p := Pieces(t);
        assert Pieces(s)[1..] == p;
        assert p[0] != "" by {
          if t[1..] == [] {
          } else {
            assert p[0] == [t[0]] + Pieces(t[1..])[0];
          }
        }
      }
    }
  }

  /** A stored list string splits into normalized items that join back to it. */
  lemma SplitListString(s: string)
    requires IsListString(s)
    ensures NormalizedItems(Split(s))
    ensures Join(Split(s)) == s
  {
    LaterPiecesNonEmpty(s);
    PiecesSpaceFree(s);
    JoinPieces(s);
    var p := Pieces(s);
    assert p[0] != "" by {
      assert p[0] == [s[0]] + Pieces(s[1..])[0];
    }
    if ' ' in s {
      assert DropTrailingEmpty(p) == p;
    } else {
      PiecesOfWord(s);
    }
  }

  /** Joining normalized items gives a list string that splits back into them. */
  lemma {:induction false} JoinNormalizedItems(items: seq<string>)
    requires NormalizedItems(items)
    ensures IsListString(Join(items))
    ensures Split(Join(items)) == items
  {
    if |items| == 1 {
    } else {
      var rest := items[1..];
      JoinNormalizedItems(rest);
      var s := Join(items);
      var j := Join(rest);
      assert s == items[0] + " " + j;
      assert s[|items[0]|] == ' ';
      assert forall i :: 0 <= i < |s| - 1 ==> s[i] == ' ' ==> s[i + 1] != ' ' by {
        forall i | 0 <= i < |s| - 1 ensures s[i] == ' ' ==> s[i + 1] != ' ' {
          if i < |items[0]| {
            assert s[i] == items[0][i];
          } else if i == |items[0]| {
            assert s[i + 1] == j[0];
          } else {
            assert s[i] == j[i - |items[0]| - 1];
            assert s[i + 1] == j[i - |items[0]|];
          }
        }
      }
      assert s[|s| - 1] == j[|j| - 1];
      assert IsListString(s);
      SplitListString(s);
      PiecesOfJoin(items);
    }
  }

  /** A list setting as stored, from its items: absent when there are none. */
  function StoredItems(items: seq<string>): Option<string> {
    if items == [] then None else Some(Join(items))
  }

  /** A stored list is what its items are stored as. */
  lemma StoredItemsOf(v: Option<string>)
    requires IsStoredList(v)
    ensures StoredItems(Items(v)) == v
  {
    if v.Some? {
      SplitListString(v.value);
    }
  }
}
