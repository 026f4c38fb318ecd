/**
  The argument list every build step appends to (Jenkins'
  `ArgumentListBuilder`), the token segments the steps emit, and the reading
  functions that take such segments apart again.
 */
module Arguments {
  import opened Text

  /**
    An append-only list of command-line arguments. Adding a null string adds
    nothing; adding several strings adds each in turn.
   */
  class ArgumentListBuilder {
    var args: seq<string>

    constructor ()
      ensures args == []
    {
      args := [];
    }

    /** `add(String)` with a non-null argument. */
    method Add(a: string)
      modifies this
      ensures args == old(args) + [a]
    {
      args := args + [a];
    }

    /** `add(String)` with a reference that may be null: null adds nothing. */
    method AddIfPresent(a: Option<string>)
      modifies this
      ensures args == old(args) + Present(a)
    {
      if a.Some? {
        args := args + [a.value];
      }
    }

    /** Appends a whole run of arguments, in order. */
    method AddAll(a: seq<string>)
      modifies this
      ensures args == old(args) + a
    {
      args := args + a;
    }
  }

  /** The tokens adding a possibly-null string contributes. */
  function Present(a: Option<string>): (r: seq<string>)
    ensures |r| <= 1
    ensures r == [] <==> a.None?
    ensures a.Some? ==> r[0] == a.value
  {
    if a.Some? then [a.value] else []
  }

  /** A flag token that is emitted only when its setting is true. */
  function FlagIf(b: bool, flag: string): (r: seq<string>)
    ensures r == [] <==> !b
    ensures b ==> r == [flag]
  {
    if b then [flag] else []
  }

  /** One `flag value` pair per item, in item order. */
  function Pairs(flag: string, items: seq<string>): (r: seq<string>)
    ensures |r| == 2 * |items|
  {
    if items == [] then [] else [flag, items[0]] + Pairs(flag, items[1..])
  }

  /** The `i`-th pair is the flag followed by the `i`-th item. */
  lemma {:induction false} PairsAt(flag: string, items: seq<string>, i: nat)
    requires i < |items|
    ensures Pairs(flag, items)[2 * i] == flag && Pairs(flag, items)[2 * i + 1] == items[i]
  {
    if i > 0 {
      PairsAt(flag, items[1..], i - 1);
      var tail := Pairs(flag, items[1..]);
      assert Pairs(flag, items) == [flag, items[0]] + tail;
      assert 2 * i == 2 * (i - 1) + 2;
    }
  }

  /** One token `prefix + item` per item, in item order. */
  function Prefixed(prefix: string, items: seq<string>): seq<string> {
    seq(|items|, i requires 0 <= i < |items| => prefix + items[i])
  }

  /** Appending one more item appends one more pair, as the loops in the steps do. */
  lemma {:induction false} PairsSnoc(flag: string, items: seq<string>, x: string)
    ensures Pairs(flag, items + [x]) == Pairs(flag, items) + [flag, x]
  {
    if items == [] {
      assert Pairs(flag, [x]) == [flag, x] + Pairs(flag, []);
    } else {
      assert (items + [x])[1..] == items[1..] + [x];
      PairsSnoc(flag, items[1..], x);
    }
  }

  /** Whether token `tok` starts with `prefix`. */
  predicate HasPrefix(tok: string, prefix: string) {
    |prefix| <= |tok| && tok[..|prefix|] == prefix
  }

  /** Tokens that differ at some position are different, and neither is a prefix of the first. */
  lemma DifferAt(tok: string, other: string, i: nat)
    requires i < |tok| && i < |other| && tok[i] != other[i]
    ensures tok != other && !HasPrefix(tok, other)
  {
    if |other| <= |tok| {
      assert tok[..|other|][i] == tok[i];
    }
  }

  /**
    `t` is empty or starts with an option token (one beginning with `-`)
    whose third character is one of `cs`; option tokens whose third
    characters differ are different, which is what makes the steps' command
    lines readable left to right.
   */
  predicate Leads(t: seq<string>, cs: set<char>) {
    t == [] || (|t[0]| > 2 && t[0][0] == '-' && t[0][2] in cs)
  }

  /** A line led by one of `cs` does not start with a token whose third character is not among them. */
  lemma NotLed(t: seq<string>, cs: set<char>, tok: string)
    requires Leads(t, cs) && |tok| > 2 && tok[2] !in cs
    ensures t == [] || (t[0] != tok && !HasPrefix(t[0], tok))
  {
    if t != [] {
      DifferAt(t[0], tok, 2);
    }
  }

  /** An optional flag in front of a line led by one of `cs` leaves it led by one of `ds`. */
  lemma LeadsAfterFlag(b: bool, flag: string, t: seq<string>, cs: set<char>, ds: set<char>)
    requires Leads(t, cs) && |flag| > 2 && flag[0] == '-' && flag[2] in ds && cs <= ds
    ensures Leads(FlagIf(b, flag) + t, ds)
  {
    if !b {
      assert FlagIf(b, flag) + t == t;
    }
  }

  /** So does a run of pairs. */
  lemma LeadsAfterPairs(flag: string, items: seq<string>, t: seq<string>, cs: set<char>, ds: set<char>)
    requires Leads(t, cs) && |flag| > 2 && flag[0] == '-' && flag[2] in ds && cs <= ds
    ensures Leads(Pairs(flag, items) + t, ds)
  {
    if items == [] {
      assert Pairs(flag, items) + t == t;
    } else {
      assert (Pairs(flag, items) + t)[0] == flag;
    }
  }

  /** Reads an optional flag token off the front of `t`. */
  function TakeFlag(t: seq<string>, flag: string): (bool, seq<string>) {
    if t != [] && t[0] == flag then (true, t[1..]) else (false, t)
  }

  /** Reads an optional `flag value` pair off the front of `t`. */
  function TakePair(t: seq<string>, flag: string): (Option<string>, seq<string>) {
    if |t| >= 2 && t[0] == flag then (Some(t[1]), t[2..]) else (None, t)
  }

  /** Reads as many `flag value` pairs as there are off the front of `t`. */
  function TakePairs(t: seq<string>, flag: string): (seq<string>, seq<string>) {
    if |t| >= 2 && t[0] == flag then
      var (xs, rest) := TakePairs(t[2..], flag);
      ([t[1]] + xs, rest)
    else ([], t)
  }

  /** Reads an optional `prefix + value` token off the front of `t`. */
  function TakePrefixed(t: seq<string>, prefix: string): (Option<string>, seq<string>) {
    if t != [] && HasPrefix(t[0], prefix) then (Some(t[0][|prefix|..]), t[1..]) else (None, t)
  }

  /** Reads as many `prefix + value` tokens as there are off the front of `t`. */
  function TakeAllPrefixed(t: seq<string>, prefix: string): (seq<string>, seq<string>) {
    if t != [] && HasPrefix(t[0], prefix) then
      var (xs, rest) := TakeAllPrefixed(t[1..], prefix);
      ([t[0][|prefix|..]] + xs, rest)
    else ([], t)
  }

  /** An optional flag is read back as emitted, when what follows is not that flag. */
  lemma TakeFlagIf(b: bool, flag: string, rest: seq<string>)
    requires rest == [] || rest[0] != flag
    ensures TakeFlag(FlagIf(b, flag) + rest, flag) == (b, rest)
  {
    if b {
      assert (FlagIf(b, flag) + rest)[1..] == rest;
    } else {
      assert FlagIf(b, flag) + rest == rest;
    }
  }

  /** An optional pair is read back as emitted, when what follows is not that flag. */
  lemma TakePairOf(flag: string, v: Option<string>, rest: seq<string>)
    requires |rest| < 2 || rest[0] != flag
    ensures TakePair((if v.Some? then [flag, v.value] else []) + rest, flag) == (v, rest)
  {
    if v.Some? {
      assert ([flag, v.value] + rest)[2..] == rest;
    } else {
      assert [] + rest == rest;
    }
  }

  /** A run of pairs is read back item by item, up to the first token that is not the flag. */
  lemma {:induction false} TakePairsOf(flag: string, items: seq<string>, rest: seq<string>)
    requires |rest| < 2 || rest[0] != flag
    ensures TakePairs(Pairs(flag, items) + rest, flag) == (items, rest)
  {
    if items != [] {
      var t := Pairs(flag, items) + rest;
      assert t[0] == flag && t[1] == items[0];
      assert t[2..] == Pairs(flag, items[1..]) + rest;
      TakePairsOf(flag, items[1..], rest);
      assert [items[0]] + items[1..] == items;
    } else {
      assert Pairs(flag, items) + rest == rest;
    }
  }

  /** An optional prefixed token is read back as emitted. */
  lemma TakePrefixedOf(prefix: string, v: Option<string>, rest: seq<string>)
    requires rest == [] || !HasPrefix(rest[0], prefix)
    ensures TakePrefixed(Prefixed(prefix, Present(v)) + rest, prefix) == (v, rest)
  {
    if v.Some? {
      var t := Prefixed(prefix, Present(v)) + rest;
      assert t[0] == prefix + v.value;
      assert t[0][|prefix|..] == v.value;
      assert t[1..] == rest;
    } else {
      assert Prefixed(prefix, Present(v)) + rest == rest;
    }
  }

  /** A run of prefixed tokens is read back item by item. */
  lemma {:induction false} TakeAllPrefixedOf(prefix: string, items: seq<string>, rest: seq<string>)
    requires rest == [] || !HasPrefix(rest[0], prefix)
    ensures TakeAllPrefixed(Prefixed(prefix, items) + rest, prefix) == (items, rest)
  {
    if items != [] {
      var t := Prefixed(prefix, items) + rest;
      assert t[0] == prefix + items[0];
      assert t[0][|prefix|..] == items[0];
      assert t[1..] == Prefixed(prefix, items[1..]) + rest;
      TakeAllPrefixedOf(prefix, items[1..], rest);
      assert [items[0]] + items[1..] == items;
    } else {
      assert Prefixed(prefix, items) + rest == rest;
    }
  }

  // ---------------------------------------------------------------------
  // Regrouping the segments of a command line

  /** Four segments appended one after the other make up one run, appended at once. */
  lemma Appended4<T>(m0: seq<T>, m1: seq<T>, m2: seq<T>, m3: seq<T>, fin: seq<T>,
                     a: seq<T>, b: seq<T>, c: seq<T>, d: seq<T>)
    requires m1 == m0 + a && m2 == m1 + b && m3 == m2 + c && fin == m3 + d
    ensures fin == m0 + (a + b + c + d)
  {
  }

  /** Five segments appended one after the other, grouped from the right. */
  lemma Appended5<T>(m0: seq<T>, m1: seq<T>, m2: seq<T>, m3: seq<T>, m4: seq<T>, fin: seq<T>,
                     a: seq<T>, b: seq<T>, c: seq<T>, d: seq<T>, e: seq<T>)
    requires m1 == m0 + a && m2 == m1 + b && m3 == m2 + c && m4 == m3 + d && fin == m4 + e
    ensures fin == m0 + (a + (b + (c + (d + e))))
  {
  }

  /** A run appended after a head that was appended first. */
  lemma AfterHead<T>(start: seq<T>, head: seq<T>, m0: seq<T>, fin: seq<T>, x: seq<T>)
    requires m0 == start + head && fin == m0 + x
    ensures fin == start + (head + x)
  {
  }

  /** Four segments ahead of a rest, grouped from the left or from the right. */
  lemma Regroup4<T>(a: seq<T>, b: seq<T>, c: seq<T>, d: seq<T>, r: seq<T>)
    ensures a + b + c + d + r == a + (b + (c + (d + r)))
    ensures a + b + c + d == a + (b + c + d)
  {
  }

  /** A head followed by four segments, grouped three ways. */
  lemma Regroup5<T>(h: seq<T>, f: seq<T>, o: seq<T>, t: seq<T>, v: seq<T>)
    ensures h + (f + o + t + v) == h + f + (o + t + v)
    ensures h + (f + o + t + v) == h + f + o + t + v
  {
  }
}
