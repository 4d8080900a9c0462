/** The server screen's own address (`getIpAddress` in the main activity):
    the first address, in interface order and then address order, that is not
    a loopback address and whose text has no ':' (so not IPv6), or "0.0.0.0"
    when there is none or the enumeration fails. */
module LocalAddress {
  import opened Basics

  /** An address of a network interface, as `InetAddress` reports it. */
  datatype InetAddress = InetAddress(hostAddress: string, isLoopback: bool)

  const Fallback := "0.0.0.0"

  /** The test inside the inner loop. */
  predicate Qualifies(a: InetAddress) {
    !a.isLoopback && ':' !in a.hostAddress
  }

  /** The addresses of the interfaces, in the order the two nested
      enumerations visit them. */
  function AllAddresses(interfaces: seq<seq<InetAddress>>): seq<InetAddress>
    decreases |interfaces|
  {
    if interfaces == [] then []
    else AllAddresses(interfaces[..|interfaces| - 1]) + interfaces[|interfaces| - 1]
  }

  /** The position of the first qualifying address, or the length when no
      address qualifies. */
  function FirstQualifying(addresses: seq<InetAddress>): (n: nat)
    ensures n <= |addresses|
    ensures forall k :: 0 <= k < n ==> !Qualifies(addresses[k])
    ensures n < |addresses| ==> Qualifies(addresses[n])
    decreases |addresses|
  {
    if addresses == [] || Qualifies(addresses[0]) then 0
    else 1 + FirstQualifying(addresses[1..])
  }

  /** The address `getIpAddress` reports, given the enumeration (`None` when
      `getNetworkInterfaces` throws). */
  function Selected(interfaces: Option<seq<seq<InetAddress>>>): string {
    match interfaces
    case None => Fallback
    case Some(ifs) =>
      var all := AllAddresses(ifs);
      var n := FirstQualifying(all);
      if n < |all| then all[n].hostAddress else Fallback
  }

  /** Whatever the enumeration, the reported address has no ':', and it is
      either the fallback or the text of a non-loopback address of some
      interface; with no qualifying address it is the fallback. */
  lemma SelectedIsQualifying(interfaces: Option<seq<seq<InetAddress>>>)
    ensures ':' !in Selected(interfaces)
    ensures Selected(interfaces) == Fallback ||
      exists a :: a in AllAddresses(interfaces.value) && Qualifies(a) &&
        a.hostAddress == Selected(interfaces)
    ensures (interfaces.Some? &&
             forall a :: a in AllAddresses(interfaces.value) ==> !Qualifies(a))
      ==> Selected(interfaces) == Fallback
  {
    assert ':' !in Fallback;
    if interfaces.Some? {
      var all := AllAddresses(interfaces.value);
      var n := FirstQualifying(all);
      if n < |all| {
        assert all[n] in all;
      }
    }
  }

  /** A position whose predecessors all fail the test and which passes it is
      the first qualifying one. */
  lemma {:induction false} FirstQualifyingIs(addresses: seq<InetAddress>, n: nat)
    requires n <= |addresses|
    requires forall k :: 0 <= k < n ==> !Qualifies(addresses[k])
    requires n < |addresses| ==> Qualifies(addresses[n])
    ensures FirstQualifying(addresses) == n
    decreases n
  {
    if n > 0 {
      FirstQualifyingIs(addresses[1..], n - 1);
    }
  }

  /** The addresses of a prefix of the interfaces come first. */
  lemma {:induction false} AllAddressesPrefix(interfaces: seq<seq<InetAddress>>, i: nat)
    requires i <= |interfaces|
    ensures AllAddresses(interfaces[..i]) <= AllAddresses(interfaces)
    decreases |interfaces| - i
  {
    if i < |interfaces| {
      AllAddressesPrefix(interfaces, i + 1);
      assert interfaces[..i + 1][..i] == interfaces[..i];
    } else {
      assert interfaces[..i] == interfaces;
    }
  }

  /** `getIpAddress`: walk the interfaces and each interface's addresses and
      return the first qualifying one; `inspected` counts the addresses whose
      test was evaluated, so nothing after the first qualifying address is
      looked at. */
  method GetIpAddress(interfaces: Option<seq<seq<InetAddress>>>)
    returns (ip: string, ghost inspected: nat)
    ensures ip == Selected(interfaces)
    ensures interfaces.None? ==> inspected == 0
    ensures interfaces.Some? ==>
      var all := AllAddresses(interfaces.value);
      var n := FirstQualifying(all);
      inspected == if n < |all| then n + 1 else |all|
  {
    inspected := 0;
    if interfaces.None? {
      // getNetworkInterfaces threw; the exception is printed and swallowed.
      return Fallback, 0;
    }
    var ifs := interfaces.value;
    ghost var all := AllAddresses(ifs);
    var i := 0;
    while i < |ifs|
      invariant 0 <= i <= |ifs|
      invariant inspected == |AllAddresses(ifs[..i])|
      invariant AllAddresses(ifs[..i]) <= all
      invariant forall k :: 0 <= k < inspected ==> !Qualifies(all[k])
    {
      var addresses := ifs[i];
      assert ifs[..i + 1][..i] == ifs[..i];
      assert AllAddresses(ifs[..i + 1]) == AllAddresses(ifs[..i]) + addresses;
      AllAddressesPrefix(ifs, i + 1);
      var j := 0;
      while j < |addresses|
        invariant 0 <= j <= |addresses|
        invariant inspected == |AllAddresses(ifs[..i])| + j
        invariant forall k :: 0 <= k < inspected ==> !Qualifies(all[k])
      {
        assert all[inspected] == addresses[j];
        var address := addresses[j];
        inspected := inspected + 1;
        if !address.isLoopback && ':' !in address.hostAddress {
          FirstQualifyingIs(all, inspected - 1);
          return address.hostAddress, inspected;
        }
        j := j + 1;
      }
      i := i + 1;
    }
    assert ifs[..i] == ifs;
    FirstQualifyingIs(all, |all|);
    ip := Fallback;
  }
}
