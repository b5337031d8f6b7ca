/**
 * Generation-1 boot order: a flat list of boot-device tokens. Setting a boot
 * source moves its token to the front; reading the boot source maps the first
 * token back to its name.
 */
module BootGen1 {
  import opened Wrappers
  import opened Errors

  /**
   * Generation-1 boot-device tokens. The driver names three of them; any other
   * token the hypervisor lists (a floppy drive, say) is an OtherBootDevice.
   */
  datatype BootDevice = BootNetwork | BootHardDisk | BootCdrom | OtherBootDevice(code: int)

  /** The table installed by initialize: boot-source name to token. */
  const BootOrderMap: map<string, BootDevice> :=
    map["Pxe" := BootNetwork, "Hdd" := BootHardDisk, "Cd" := BootCdrom]

  /** The keys of BootOrderMap in the order a scan over the table visits them. */
  const BootOrderKeys: seq<string> := ["Pxe", "Hdd", "Cd"]

  /**
   * The first key in `keys` that the table maps to `device`: the generator
   * `next(k for (k, v) in items if v == device)`, absent when it is exhausted.
   */
  function FirstKeyFor(keys: seq<string>, device: BootDevice): (k: Option<string>)
    ensures k.Some? ==> k.value in keys && k.value in BootOrderMap && BootOrderMap[k.value] == device
    ensures k.None? ==> forall i :: 0 <= i < |keys| && keys[i] in BootOrderMap ==> BootOrderMap[keys[i]] != device
  {
    if keys == [] then None
    else if keys[0] in BootOrderMap && BootOrderMap[keys[0]] == device then Some(keys[0])
    else FirstKeyFor(keys[1..], device)
  }

  /**
   * _get_boot_device_gen1: the name whose token is first in the boot order.
   * An empty order raises IndexError; a first token the table does not hold
   * raises StopIteration.
   */
  function GetBootDeviceGen1(order: seq<BootDevice>): (r: Result<string, Exception>)
    ensures order == [] ==> r == Failure(IndexError)
    ensures r.Success? <==> order != [] && order[0] in BootOrderMap.Values
    ensures r.Success? ==> r.value in BootOrderMap && BootOrderMap[r.value] == order[0]
    ensures order != [] && r.Failure? ==> r.error == StopIteration
  {
    if order == [] then Failure(IndexError)
    else
      match FirstKeyFor(BootOrderKeys, order[0])
      case Some(k) => Success(k)
      case None =>
        assert forall k :: k in BootOrderMap ==> k in BootOrderKeys;
        Failure(StopIteration)
  }

  /** The index of the first occurrence of `x`, where Python's list.remove deletes. */
  function FirstIndex<T(==)>(s: seq<T>, x: T): (i: nat)
    requires x in s
    ensures i < |s| && s[i] == x && x !in s[..i]
  {
    if s[0] == x then 0
    else
      var j := FirstIndex(s[1..], x);
      assert s[..j + 1] == [s[0]] + s[1..][..j];
      j + 1
  }

  /** `x` removed from its first position and inserted at index 0. */
  function MoveToFront<T(==)>(s: seq<T>, x: T): (r: seq<T>)
    requires x in s
  {
    var i := FirstIndex(s, x);
    [x] + (s[..i] + s[i + 1..])
  }

  /** An independent definition of list.remove on a list that holds `x`. */
  function RemoveFirst<T(==)>(s: seq<T>, x: T): (r: seq<T>)
    decreases s
  {
    if s == [] then []
    else if s[0] == x then s[1..]
    else [s[0]] + RemoveFirst(s[1..], x)
  }

  /** The list with every occurrence of `x` dropped: what "the other entries" are. */
  function Without<T(==)>(s: seq<T>, x: T): (r: seq<T>)
    decreases s
  {
    if s == [] then []
    else if s[0] == x then Without(s[1..], x)
    else [s[0]] + Without(s[1..], x)
  }

  predicate Distinct<T(==)>(s: seq<T>)
  {
    forall i, j :: 0 <= i < j < |s| ==> s[i] != s[j]
  }

  /**
   * _set_boot_device_gen1 on the value of the boot order: the new order to
   * persist, or ValueError when the source has no token (`get` gives None,
   * which the hypervisor's list never holds) or its token is not in the list.
   */
  function SetBootOrderGen1(order: seq<BootDevice>, source: string): (r: Result<seq<BootDevice>, Exception>)
    ensures r.Success? <==> source in BootOrderMap && BootOrderMap[source] in order
    ensures r.Failure? ==> r.error == ValueError
    ensures r.Success? ==> r.value == MoveToFront(order, BootOrderMap[source])
  {
    if source !in BootOrderMap then Failure(ValueError)
    else
      var device := BootOrderMap[source];
      if device !in order then Failure(ValueError)
      else Success(MoveToFront(order, device))
  }

  /** The slicing of MoveToFront agrees with the recursive list.remove. */
  lemma {:induction false} MoveToFrontIsRemoveThenInsert<T>(s: seq<T>, x: T)
    requires x in s
    ensures MoveToFront(s, x) == [x] + RemoveFirst(s, x)
  {
    var i := FirstIndex(s, x);
    if s[0] != x {
      MoveToFrontIsRemoveThenInsert(s[1..], x);
      var j := FirstIndex(s[1..], x);
      assert i == j + 1;
      assert s[..i] == [s[0]] + s[1..][..j];
      assert s[i + 1..] == s[1..][j + 1..];
      assert RemoveFirst(s[1..], x) == s[1..][..j] + s[1..][j + 1..] by {
        assert MoveToFront(s[1..], x)[1..] == RemoveFirst(s[1..], x);
      }
      assert RemoveFirst(s, x) == [s[0]] + RemoveFirst(s[1..], x);
    }
  }

  /** Moving to front keeps the length and the multiset of tokens and puts `x` first. */
  lemma MoveToFrontPermutes<T>(s: seq<T>, x: T)
    requires x in s
    ensures |MoveToFront(s, x)| == |s|
    ensures multiset(MoveToFront(s, x)) == multiset(s)
    ensures MoveToFront(s, x)[0] == x
  {
    var i := FirstIndex(s, x);
    assert s == s[..i] + [s[i]] + s[i + 1..];
    calc {
      multiset(s);
      multiset(s[..i] + [s[i]] + s[i + 1..]);
      multiset(s[..i]) + multiset{x} + multiset(s[i + 1..]);
      multiset([x] + (s[..i] + s[i + 1..]));
    }
  }

  lemma {:induction false} WithoutRemoveFirst<T>(s: seq<T>, x: T)
    ensures Without(RemoveFirst(s, x), x) == Without(s, x)
    decreases s
  {
    if s != [] && s[0] != x {
      WithoutRemoveFirst(s[1..], x);
      assert ([s[0]] + RemoveFirst(s[1..], x))[1..] == RemoveFirst(s[1..], x);
    }
  }

  /** The entries other than `x` keep their relative order. */
  lemma {:induction false} MoveToFrontKeepsOthersInOrder<T>(s: seq<T>, x: T)
    requires x in s
    ensures Without(MoveToFront(s, x), x) == Without(s, x)
  {
    MoveToFrontIsRemoveThenInsert(s, x);
    var r := [x] + RemoveFirst(s, x);
    assert r[1..] == RemoveFirst(s, x);
    WithoutRemoveFirst(s, x);
  }

  /** Setting the boot source that is already first leaves the order as it is. */
  lemma MoveToFrontIdempotent<T>(s: seq<T>, x: T)
    requires x in s
    ensures x in MoveToFront(s, x)
    ensures MoveToFront(MoveToFront(s, x), x) == MoveToFront(s, x)
  {
    var r := MoveToFront(s, x);
    assert r[0] == x;
    assert FirstIndex(r, x) == 0;
    assert r[..0] + r[1..] == r[1..];
  }

  /** Setting the same boot source twice gives the same order as setting it once. */
  lemma {:induction false} SetBootOrderGen1Idempotent(order: seq<BootDevice>, source: string)
    requires SetBootOrderGen1(order, source).Success?
    ensures SetBootOrderGen1(SetBootOrderGen1(order, source).value, source) == SetBootOrderGen1(order, source)
  {
    MoveToFrontIdempotent(order, BootOrderMap[source]);
  }

  /** A boot order without duplicate tokens stays without duplicates. */
  lemma MoveToFrontKeepsDistinct<T>(s: seq<T>, x: T)
    requires x in s
    requires Distinct(s)
    ensures Distinct(MoveToFront(s, x))
  {
    var i := FirstIndex(s, x);
    var rest := s[..i] + s[i + 1..];
    var r := MoveToFront(s, x);
    assert forall k :: 0 <= k < |rest| ==> rest[k] == s[if k < i then k else k + 1];
    forall a, b | 0 <= a < b < |r| ensures r[a] != r[b] {
      if a == 0 {
        assert r[b] == s[if b - 1 < i then b - 1 else b];
      } else {
        assert r[a] == rest[a - 1] && r[b] == rest[b - 1];
      }
    }
  }

  /** The three table tokens are pairwise distinct, so a token names one source. */
  lemma {:induction false} BootOrderMapInjective(a: string, b: string)
    requires a in BootOrderMap && b in BootOrderMap
    requires BootOrderMap[a] == BootOrderMap[b]
    ensures a == b
  {
  }

  /** After a successful set, reading the boot source gives back the source that was set. */
  lemma {:induction false} GetAfterSetGen1(order: seq<BootDevice>, source: string)
    requires SetBootOrderGen1(order, source).Success?
    ensures GetBootDeviceGen1(SetBootOrderGen1(order, source).value) == Success(source)
  {
    var device := BootOrderMap[source];
    var r := SetBootOrderGen1(order, source).value;
    MoveToFrontPermutes(order, device);
    assert r[0] == device;
    assert device in BootOrderMap.Values;
    var g := GetBootDeviceGen1(r);
    BootOrderMapInjective(g.value, source);
  }
}
