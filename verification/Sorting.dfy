/** Ascending sequences without duplicates: sorted map keys, and sort followed by dedup. */
module Sorting {
  import opened Basics

  predicate Ascending(s: seq<u16>) {
    forall i, j | 0 <= i < j < |s| :: s[i] < s[j]
  }

  ghost function Elements(s: seq<u16>): set<u16> {
    set x | x in s
  }

  /** Puts `x` in its place unless it is already there. */
  function Insert(s: seq<u16>, x: u16): (r: seq<u16>)
    requires Ascending(s)
    ensures Ascending(r) && Elements(r) == Elements(s) + {x}
  {
    if s == [] then [x]
    else if x < s[0] then InsertFirst(s, x); [x] + s
    else if x == s[0] then s
    else
      InsertRest(s, x, Insert(s[1..], x));
      [s[0]] + Insert(s[1..], x)
  }

  lemma InsertFirst(s: seq<u16>, x: u16)
    requires Ascending(s) && s != [] && x < s[0]
    ensures Ascending([x] + s) && Elements([x] + s) == Elements(s) + {x}
  {
  }

  lemma InsertRest(s: seq<u16>, x: u16, rest: seq<u16>)
    requires Ascending(s) && s != [] && s[0] < x
    requires Ascending(rest) && Elements(rest) == Elements(s[1..]) + {x}
    ensures Ascending([s[0]] + rest) && Elements([s[0]] + rest) == Elements(s) + {x}
  {
    assert s == [s[0]] + s[1..];
    forall j | 0 <= j < |rest| ensures s[0] < rest[j] {
      assert rest[j] in Elements(s[1..]) + {x};
    }
    var r := [s[0]] + rest;
    forall y ensures y in Elements(r) <==> y in Elements(s) + {x} {
      assert y in r <==> y == s[0] || y in rest;
      assert y in s <==> y == s[0] || y in s[1..];
      assert y in rest <==> y in Elements(rest);
    }
  }

  /** The keys of a map in ascending order. */
  method SortedKeys(keys: set<u16>) returns (r: seq<u16>)
    ensures Ascending(r) && Elements(r) == keys
  {
    r := [];
    var left := keys;
    while left != {}
      invariant left <= keys && Ascending(r) && Elements(r) == keys - left
      decreases left
    {
      var x :| x in left;
      r := Insert(r, x);
      left := left - {x};
    }
  }

  /** `sort_unstable` followed by `dedup`. */
  method SortDedup(s: seq<u16>) returns (r: seq<u16>)
    ensures Ascending(r) && Elements(r) == Elements(s)
  {
    r := [];
    for i := 0 to |s|
      invariant Ascending(r) && Elements(r) == Elements(s[..i])
    {
      assert s[..i + 1] == s[..i] + [s[i]];
      r := Insert(r, s[i]);
    }
    assert s[..|s|] == s;
  }
}
