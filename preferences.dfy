/** The recent-server-address store of the client screen
    (`PreferenceManager`): a string set kept under the key "recent_ips",
    read back sorted, and extended by `saveIpAddress`, which keeps at most five
    entries. */
module Preferences {
  import opened StringOrder

  /** The cap applied by `take(5)`. */
  const MaxRecentIps := 5

  /** Kotlin's `Char.isWhitespace` on the JVM: Java whitespace or a Unicode
      space separator. */
  predicate IsWhitespace(c: char) {
    var n := c as int;
    (0x09 <= n <= 0x0D) || (0x1C <= n <= 0x20) || n == 0xA0 || n == 0x1680 ||
    (0x2000 <= n <= 0x200A) || n == 0x2028 || n == 0x2029 || n == 0x202F ||
    n == 0x205F || n == 0x3000
  }

  /** `String.isBlank()`: empty or whitespace only. */
  predicate IsBlank(s: string) {
    forall i :: 0 <= i < |s| ==> IsWhitespace(s[i])
  }

  /** Ascending in `String.compareTo` order, each element once. */
  predicate StrictlyAscending(r: seq<string>) {
    forall i, j :: 0 <= i < j < |r| ==> LexLe(r[i], r[j]) && r[i] != r[j]
  }

  /** The elements of a sequence as a set (`toSet()`). */
  function ToSet(q: seq<string>): set<string> {
    set x | x in q
  }

  /** `toList().sorted()` of a stored set: every element exactly once, in
      ascending order. */
  function SortedList(s: set<string>): (r: seq<string>)
    ensures |r| == |s|
    ensures forall x :: x in r <==> x in s
    ensures StrictlyAscending(r)
    decreases |s|
  {
    if s == {} then []
    else
      var m := Least(s);
      var rest := SortedList(s - {m});
      AscendingCons(m, rest);
      [m] + rest
  }

  /** A string below every element of an ascending list extends it. */
  lemma AscendingCons(m: string, rest: seq<string>)
    requires StrictlyAscending(rest)
    requires forall x :: x in rest ==> LexLe(m, x) && x != m
    ensures StrictlyAscending([m] + rest)
  {
    var r := [m] + rest;
    forall i, j | 0 <= i < j < |r|
      ensures LexLe(r[i], r[j]) && r[i] != r[j]
    {
      assert r[j] == rest[j - 1];
      if i > 0 {
        assert r[i] == rest[i - 1];
      }
    }
  }

  /** `add` on the insertion-ordered set built by `toMutableSet()`, written on
      its iteration order: a new element goes last, a present one changes
      nothing. */
  function InsertionOrderedAdd(order: seq<string>, x: string): seq<string> {
    if x in order then order else order + [x]
  }

  /** `take(n)` on an iteration order. */
  function Take(order: seq<string>, n: nat): seq<string> {
    if |order| <= n then order else order[..n]
  }

  /** The set `saveIpAddress(ip)` writes back, given the stored set. */
  function SavedIps(stored: set<string>, ip: string): set<string> {
    if IsBlank(ip) then stored
    else ToSet(Take(InsertionOrderedAdd(SortedList(stored), ip), MaxRecentIps))
  }

  /** Saving each address of `ips` in turn. */
  function SaveAll(stored: set<string>, ips: seq<string>): set<string>
    decreases |ips|
  {
    if ips == [] then stored else SaveAll(SavedIps(stored, ips[0]), ips[1..])
  }

  predicate Distinct(q: seq<string>) {
    forall i, j :: 0 <= i < j < |q| ==> q[i] != q[j]
  }

  lemma {:induction false} DistinctToSetSize(q: seq<string>)
    requires Distinct(q)
    ensures |ToSet(q)| == |q|
    decreases |q|
  {
    if q != [] {
      DistinctToSetSize(q[1..]);
      assert ToSet(q) == {q[0]} + ToSet(q[1..]);
      assert q[0] !in ToSet(q[1..]);
    }
  }

  /** A strictly ascending listing of a set is its sorted list: the result of
      `getRecentIpAddresses` is determined by the stored set alone. */
  lemma {:induction false} SortedListUnique(q: seq<string>, s: set<string>)
    requires StrictlyAscending(q)
    requires forall x :: x in q <==> x in s
    ensures q == SortedList(s)
    decreases |q|
  {
    if q == [] {
      assert s == {};
    } else {
      assert q[0] in s;
      var m := Least(s);
      assert q[0] == m by {
        LexLeAntisymmetric(q[0], m);
      }
      assert forall x :: x in q[1..] <==> x in s - {m};
      SortedListUnique(q[1..], s - {m});
    }
  }

  /** The whole behaviour of a save on a store of at most five addresses: a
      blank address, an address already stored, or a new address when five are
      stored leave the store as it was; otherwise the address is added. */
  lemma SavedIpsCases(stored: set<string>, ip: string)
    requires |stored| <= MaxRecentIps
    ensures SavedIps(stored, ip) ==
      if IsBlank(ip) || ip in stored || |stored| == MaxRecentIps then stored
      else stored + {ip}
  {
    if !IsBlank(ip) {
      KeepFirstFive(SortedList(stored), stored, ip);
    }
  }

  /** Adding to a listing of at most five addresses and keeping the first
      five. */
  lemma KeepFirstFive(order: seq<string>, stored: set<string>, ip: string)
    requires |order| == |stored| <= MaxRecentIps
    requires forall x :: x in order <==> x in stored
    ensures ToSet(Take(InsertionOrderedAdd(order, ip), MaxRecentIps)) ==
      if ip in stored || |stored| == MaxRecentIps then stored else stored + {ip}
  {
    assert ToSet(order) == stored;
    if ip !in stored {
      assert ToSet(order + [ip]) == stored + {ip};
      if |stored| == MaxRecentIps {
        assert Take(order + [ip], MaxRecentIps) == order;
      }
    }
  }

  /** A save never leaves more than five addresses, unless it was a blank
      save on a store that already held more. */
  lemma SavedIpsBounded(stored: set<string>, ip: string)
    requires !IsBlank(ip) || |stored| <= MaxRecentIps
    ensures |SavedIps(stored, ip)| <= MaxRecentIps
  {
    if !IsBlank(ip) {
      var kept := Take(InsertionOrderedAdd(SortedList(stored), ip), MaxRecentIps);
      AddKeepsDistinct(SortedList(stored), ip);
      assert Distinct(kept);
      DistinctToSetSize(kept);
    }
  }

  lemma AddKeepsDistinct(sorted: seq<string>, ip: string)
    requires Distinct(sorted)
    ensures Distinct(InsertionOrderedAdd(sorted, ip))
  {
  }

  /** Nothing but the new address and old entries is ever stored. */
  lemma SavedIpsWithin(stored: set<string>, ip: string)
    ensures SavedIps(stored, ip) <= stored + {ip}
  {
  }

  /** On a store of at most five addresses, a save drops no address. */
  lemma SavedIpsKeepsOld(stored: set<string>, ip: string)
    requires |stored| <= MaxRecentIps
    ensures stored <= SavedIps(stored, ip)
  {
    SavedIpsCases(stored, ip);
  }

  /** When fewer than five are stored, a non-blank address is stored after
      saving it. */
  lemma SavedIpsAddsWhenRoom(stored: set<string>, ip: string)
    requires |stored| < MaxRecentIps && !IsBlank(ip)
    ensures ip in SavedIps(stored, ip)
  {
    SavedIpsCases(stored, ip);
  }

  /** When five are stored, a new address is dropped: `take(5)` keeps the five
      sorted old entries that precede it. */
  lemma SavedIpsDropsWhenFull(stored: set<string>, ip: string)
    requires |stored| == MaxRecentIps && ip !in stored
    ensures SavedIps(stored, ip) == stored
    ensures ip !in SavedIps(stored, ip)
  {
    SavedIpsCases(stored, ip);
  }

  /** A non-blank save on a store of more than five addresses cuts it down
      to the five smallest. */
  lemma SavedIpsOverfull(stored: set<string>, ip: string)
    requires !IsBlank(ip) && |stored| > MaxRecentIps
    ensures SavedIps(stored, ip) == ToSet(SortedList(stored)[..MaxRecentIps])
    ensures |SavedIps(stored, ip)| == MaxRecentIps
  {
    var sorted := SortedList(stored);
    var current := InsertionOrderedAdd(sorted, ip);
    AddKeepsDistinct(sorted, ip);
    var kept := Take(current, MaxRecentIps);
    assert kept == sorted[..MaxRecentIps];
    assert |kept| == MaxRecentIps;
    assert Distinct(kept);
    DistinctToSetSize(kept);
  }

  /** After a non-blank save, either the address is stored or five are. */
  lemma SavedIpsHoldsOrFull(stored: set<string>, ip: string)
    requires !IsBlank(ip)
    ensures ip in SavedIps(stored, ip) || |SavedIps(stored, ip)| == MaxRecentIps
  {
    if |stored| <= MaxRecentIps {
      SavedIpsCases(stored, ip);
    } else {
      SavedIpsOverfull(stored, ip);
    }
  }

  /** Saving an address twice leaves what saving it once leaves, whatever was
      stored. */
  lemma SavedIpsIdempotent(stored: set<string>, ip: string)
    ensures SavedIps(SavedIps(stored, ip), ip) == SavedIps(stored, ip)
  {
    if !IsBlank(ip) {
      var once := SavedIps(stored, ip);
      SavedIpsBounded(stored, ip);
      SavedIpsHoldsOrFull(stored, ip);
      SavedIpsCases(once, ip);
    }
  }

  /** Every address of `ips` is non-blank and not yet stored. */
  predicate AllNew(ips: seq<string>, stored: set<string>) {
    forall i :: 0 <= i < |ips| ==> !IsBlank(ips[i]) && ips[i] !in stored
  }

  /** Once five addresses are stored, no new address ever gets in. */
  lemma {:induction false} SaveAllWhenFull(stored: set<string>, ips: seq<string>)
    requires |stored| == MaxRecentIps
    requires AllNew(ips, stored)
    ensures SaveAll(stored, ips) == stored
    decreases |ips|
  {
    if ips != [] {
      SavedIpsDropsWhenFull(stored, ips[0]);
      assert AllNew(ips[1..], stored) by {
        forall i | 0 <= i < |ips[1..]|
          ensures !IsBlank(ips[1..][i]) && ips[1..][i] !in stored
        {
          assert ips[1..][i] == ips[i + 1];
        }
      }
      SaveAllWhenFull(stored, ips[1..]);
    }
  }

  /** Saving distinct, new, non-blank addresses one after another fills the
      free places with the first of them and drops all later ones. */
  lemma {:induction false} SaveAllDistinct(stored: set<string>, ips: seq<string>)
    requires |stored| <= MaxRecentIps
    requires Distinct(ips)
    requires AllNew(ips, stored)
    ensures SaveAll(stored, ips) == stored + ToSet(Take(ips, MaxRecentIps - |stored|))
    decreases |ips|, 1
  {
    if ips == [] {
    } else if |stored| == MaxRecentIps {
      SaveAllWhenFull(stored, ips);
      assert Take(ips, 0) == [];
      assert ToSet([]) == {};
    } else {
      SaveAllWithRoom(stored, ips);
    }
  }

  /** The step of `SaveAllDistinct` while there is room: the first address
      goes in and the rest are saved into the larger store. */
  lemma {:induction false} SaveAllWithRoom(stored: set<string>, ips: seq<string>)
    requires |stored| < MaxRecentIps && ips != []
    requires Distinct(ips)
    requires AllNew(ips, stored)
    ensures SaveAll(stored, ips) == stored + ToSet(Take(ips, MaxRecentIps - |stored|))
    decreases |ips|, 0
  {
    var next := stored + {ips[0]};
    var room := MaxRecentIps - |stored|;
    var tail := ToSet(Take(ips[1..], room - 1));
    SaveAllFirst(stored, ips);
    TailStaysNew(ips, stored);
    calc {
      SaveAll(stored, ips);
      SaveAll(next, ips[1..]);
      { SaveAllDistinct(next, ips[1..]); }
      next + tail;
      { UnionShift(stored, ips[0], tail); }
      stored + ({ips[0]} + tail);
      { TakeCons(ips, room); }
      stored + ToSet(Take(ips, room));
    }
  }

  lemma UnionShift(s: set<string>, x: string, t: set<string>)
    ensures (s + {x}) + t == s + ({x} + t)
  {
  }

  /** With room left, the first of the new addresses goes in. */
  lemma SaveAllFirst(stored: set<string>, ips: seq<string>)
    requires |stored| < MaxRecentIps && ips != []
    requires !IsBlank(ips[0]) && ips[0] !in stored
    ensures SaveAll(stored, ips) == SaveAll(stored + {ips[0]}, ips[1..])
    ensures |stored + {ips[0]}| == |stored| + 1
  {
    SavedIpsCases(stored, ips[0]);
  }

  lemma TailStaysNew(ips: seq<string>, stored: set<string>)
    requires ips != [] && Distinct(ips) && AllNew(ips, stored)
    ensures Distinct(ips[1..]) && AllNew(ips[1..], stored + {ips[0]})
  {
    var rest := ips[1..];
    forall i, j | 0 <= i < j < |rest|
      ensures rest[i] != rest[j]
    {
      assert rest[i] == ips[i + 1] && rest[j] == ips[j + 1];
    }
    forall i | 0 <= i < |rest|
      ensures !IsBlank(rest[i]) && rest[i] !in stored + {ips[0]}
    {
      assert rest[i] == ips[i + 1];
    }
  }

  lemma TakeCons(q: seq<string>, n: nat)
    requires q != [] && n > 0
    ensures ToSet(Take(q, n)) == {q[0]} + ToSet(Take(q[1..], n - 1))
  {
    var t := Take(q, n);
    assert t == [q[0]] + Take(q[1..], n - 1);
  }

  /** Six distinct addresses saved into an empty store keep the first five;
      the sixth, the most recent, is not retained. */
  lemma SixDistinctKeepFirstFive(ips: seq<string>)
    requires |ips| == 6 && Distinct(ips)
    requires AllNew(ips, {})
    ensures SaveAll({}, ips) == ToSet(ips[..5])
    ensures ips[5] !in SaveAll({}, ips)
  {
    SaveAllDistinct({}, ips);
  }

  /** The store behind `PreferenceManager`: the string set under "recent_ips". */
  class PreferenceManager {
    var recentIps: set<string>

    constructor(stored: set<string>)
      ensures recentIps == stored
    {
      recentIps := stored;
    }

    /** `getRecentIpAddresses`: the stored addresses, each once, ascending. */
    method GetRecentIpAddresses() returns (r: seq<string>)
      ensures |r| == |recentIps|
      ensures forall x :: x in r <==> x in recentIps
      ensures StrictlyAscending(r)
    {
      r := SortedList(recentIps);
    }

    /** `saveIpAddress`: ignore a blank address; otherwise add it to the
        iteration order of the sorted list and write back the first five. */
    method SaveIpAddress(ip: string)
      modifies this
      ensures recentIps == SavedIps(old(recentIps), ip)
    {
      if IsBlank(ip) {
        return;
      }
      var sorted := GetRecentIpAddresses();
      SortedListUnique(sorted, recentIps);
      // The sorted list has no duplicates, so it is the iteration order of
      // the mutable set built from it.
      var currentIps := sorted;
      if ip !in currentIps {
        currentIps := currentIps + [ip];
      }
      recentIps := ToSet(Take(currentIps, MaxRecentIps));
    }
  }
}
