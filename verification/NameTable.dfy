/**
 The pending-interest table of adaptor/name_udp_table.c: a growable array with tombstones, scanned
 linearly, which behaves as a map from the last 1024 bytes of a name to 1..8 client addresses.
 */
module NameTable {

  newtype Byte = b: int | 0 <= b < 256

  const MAX_NAMELEN: nat := 1024
  const MAX_ADDR_PERNAME: nat := 8

  /** sockaddr_in; only ip and port are compared, the rest is stored and handed back. */
  datatype SockAddr = SockAddr(ip: int, port: int, rest: int)

  /** nut_entry; name and addr are fixed buffers of which a prefix is in use. */
  datatype RawEntry = Entry(nameLen: nat, addrNum: nat, deleted: int, name: seq<Byte>, addr: seq<SockAddr>)

  type Entry = e: RawEntry | |e.name| == MAX_NAMELEN && |e.addr| == MAX_ADDR_PERNAME
    witness Entry(0, 0, 0, seq(MAX_NAMELEN, _ => 0), seq(MAX_ADDR_PERNAME, _ => SockAddr(0, 0, 0)))

  type Key = seq<Byte>
  type Table = map<Key, seq<SockAddr>>

  /** The part of a name that identifies it: its last 1024 bytes. */
  function KeyOf(name: seq<Byte>): (k: Key)
    ensures |k| <= MAX_NAMELEN
  {
    if |name| > MAX_NAMELEN then name[|name| - MAX_NAMELEN..] else name
  }

  /** A name of at most 1024 bytes is its own key; of a longer one the key is the end. */
  lemma KeyIs(name: seq<Byte>)
    ensures |name| <= MAX_NAMELEN ==> KeyOf(name) == name
    ensures |name| > MAX_NAMELEN ==> |KeyOf(name)| == MAX_NAMELEN && name == name[..|name| - MAX_NAMELEN] + KeyOf(name)
  {
  }

  predicate SameFd(a: SockAddr, b: SockAddr) { a.ip == b.ip && a.port == b.port }

  predicate HasFd(addrs: seq<SockAddr>, a: SockAddr) {
    exists i | 0 <= i < |addrs| :: SameFd(addrs[i], a)
  }

  // ---- The table as a map ----

  /** What nut_set answers: 1 added, 0 already there, -1 full. */
  function SetAnswer(t: Table, key: Key, a: SockAddr): int {
    if key !in t then 1
    else if HasFd(t[key], a) then 0
    else if |t[key]| == MAX_ADDR_PERNAME then -1
    else 1
  }

  function SetTable(t: Table, key: Key, a: SockAddr): Table {
    if SetAnswer(t, key, a) == 1 then t[key := (if key in t then t[key] else []) + [a]] else t
  }

  /**
   What nut_set promises: answer r and the table t' for address a under a name.  0 if an address of equal ip
   and port is listed, -1 if none is and there are eight, and else 1 with the address added at the end.
   */
  ghost predicate SetRightly(t: Table, key: Key, a: SockAddr, r: int, t': Table) {
    && (r == 0 <==> key in t && exists i | 0 <= i < |t[key]| :: t[key][i].ip == a.ip && t[key][i].port == a.port)
    && (r == -1 <==>
          && key in t && |t[key]| == MAX_ADDR_PERNAME
          && forall i | 0 <= i < |t[key]| :: t[key][i].ip != a.ip || t[key][i].port != a.port)
    && -1 <= r <= 1
    && (r == 1 ==> key in t' && t'[key] == (if key in t then t[key] else []) + [a])
    && (forall k | k != key :: (k in t' <==> k in t) && (k in t ==> t'[k] == t[k]))
    && (r != 1 ==> t' == t)
  }

  lemma SetIsRight(t: Table, key: Key, a: SockAddr)
    ensures SetRightly(t, key, a, SetAnswer(t, key, a), SetTable(t, key, a))
  {
    if key in t {
      if HasFd(t[key], a) {
        var i :| 0 <= i < |t[key]| && SameFd(t[key][i], a);
        assert t[key][i].ip == a.ip && t[key][i].port == a.port;
      }
      assert forall i | 0 <= i < |t[key]| :: SameFd(t[key][i], a) <==> t[key][i].ip == a.ip && t[key][i].port == a.port;
    }
  }

  function Max(a: nat, b: nat): nat { if a < b then b else a }

  /** Whether nut_set grows the array: a new key, no deleted entry and no room. */
  predicate Grows(t: Table, peak: nat, cap: nat, key: Key) { key !in t && |t| == peak == cap }

  /** The capacity after nut_grow: doubled below 256, then a quarter more. */
  function GrownCap(cap: nat): nat { if cap < 256 then cap * 2 else cap + cap / 4 }

  predicate DistinctFds(addrs: seq<SockAddr>) {
    forall i, j | 0 <= i < j < |addrs| :: !SameFd(addrs[i], addrs[j])
  }

  predicate AddrsOk(addrs: seq<SockAddr>) {
    1 <= |addrs| <= MAX_ADDR_PERNAME && DistinctFds(addrs)
  }

  /** Every key has between 1 and 8 addresses, no two alike. */
  ghost predicate TableOk(t: Table) {
    forall k | k in t :: AddrsOk(t[k])
  }

  lemma SetKeepsOk(t: Table, key: Key, a: SockAddr)
    requires TableOk(t)
    ensures TableOk(SetTable(t, key, a))
  {
  }

  // ---- The array and the map it stands for ----

  predicate Live(e: Entry) { e.deleted != 1 }

  predicate EntryOk(e: Entry) {
    e.nameLen <= MAX_NAMELEN && 1 <= e.addrNum <= MAX_ADDR_PERNAME && DistinctFds(e.addr[..e.addrNum])
  }

  function EntryKey(e: Entry): Key {
    if e.nameLen <= MAX_NAMELEN then e.name[..e.nameLen] else e.name
  }

  function EntryAddrs(e: Entry): seq<SockAddr> {
    if e.addrNum <= MAX_ADDR_PERNAME then e.addr[..e.addrNum] else e.addr
  }

  /** The map that an array of entries stands for. */
  ghost function View(es: seq<Entry>): Table {
    if es == [] then map[]
    else
      var init, last := es[..|es| - 1], es[|es| - 1];
      if Live(last) then View(init)[EntryKey(last) := EntryAddrs(last)] else View(init)
  }

  /** Live entries are in order, and there is at most one per key. */
  ghost predicate Wf(es: seq<Entry>) {
    es == [] ||
    var init, last := es[..|es| - 1], es[|es| - 1];
    Wf(init) && (Live(last) ==> EntryOk(last) && EntryKey(last) !in View(init))
  }

  /** A live entry is what the map says about its key, and the only one with that key. */
  lemma {:induction false} ViewAt(es: seq<Entry>, i: nat)
    requires Wf(es) && i < |es| && Live(es[i])
    ensures EntryOk(es[i]) && EntryKey(es[i]) in View(es) && View(es)[EntryKey(es[i])] == EntryAddrs(es[i])
    ensures forall j | 0 <= j < |es| && Live(es[j]) && EntryKey(es[j]) == EntryKey(es[i]) :: j == i
  {
    var n := |es| - 1;
    if i < n {
      ViewAt(es[..n], i);
      assert es[..n][i] == es[i];
      forall j | 0 <= j < n && Live(es[j]) && EntryKey(es[j]) == EntryKey(es[i]) ensures j == i {
        assert es[..n][j] == es[j];
      }
    } else {
      forall j | 0 <= j < n && Live(es[j]) ensures EntryKey(es[j]) != EntryKey(es[n]) {
        ViewAt(es[..n], j);
        assert es[..n][j] == es[j];
      }
    }
  }

  /** A key of the map has a live entry. */
  lemma {:induction false} ViewHas(es: seq<Entry>, k: Key) returns (i: nat)
    requires Wf(es) && k in View(es)
    ensures i < |es| && Live(es[i]) && EntryKey(es[i]) == k && View(es)[k] == EntryAddrs(es[i])
  {
    var n := |es| - 1;
    if Live(es[n]) && EntryKey(es[n]) == k { i := n; } else { i := ViewHas(es[..n], k); }
  }

  lemma ViewMiss(es: seq<Entry>, k: Key)
    requires Wf(es) && forall i | 0 <= i < |es| && Live(es[i]) :: EntryKey(es[i]) != k
    ensures k !in View(es)
  {
    if k in View(es) { var i := ViewHas(es, k); }
  }

  lemma ViewOk(es: seq<Entry>)
    requires Wf(es)
    ensures TableOk(View(es))
  {
    forall k | k in View(es) ensures AddrsOk(View(es)[k]) {
      var i := ViewHas(es, k);
      ViewAt(es, i);
    }
  }

  /** Writing a live entry: over the live one with its key, or over a deleted one if its key is new. */
  lemma {:induction false} ViewWrite(es: seq<Entry>, i: nat, e: Entry)
    requires Wf(es) && i < |es| && Live(e) && EntryOk(e)
    requires if Live(es[i]) then EntryKey(es[i]) == EntryKey(e) else EntryKey(e) !in View(es)
    ensures Wf(es[i := e]) && View(es[i := e]) == View(es)[EntryKey(e) := EntryAddrs(e)]
  {
    var n := |es| - 1;
    if i < n {
      assert es[i := e][..n] == es[..n][i := e] && es[..n][i] == es[i];
      if Live(es[i]) { ViewAt(es[..n], i); }
      ViewWrite(es[..n], i, e);
    } else {
      assert es[i := e][..n] == es[..n];
    }
  }

  /** Deleting an entry takes its key out, if it was live. */
  lemma {:induction false} ViewDelete(es: seq<Entry>, i: nat, e: Entry)
    requires Wf(es) && i < |es| && !Live(e)
    ensures Wf(es[i := e])
    ensures View(es[i := e]) == if Live(es[i]) then View(es) - {EntryKey(es[i])} else View(es)
  {
    var n := |es| - 1;
    if i < n {
      assert es[i := e][..n] == es[..n][i := e] && es[..n][i] == es[i];
      if Live(es[i]) { ViewAt(es[..n], i); }
      ViewDelete(es[..n], i, e);
    } else {
      assert es[i := e][..n] == es[..n];
    }
  }

  lemma ViewAppend(es: seq<Entry>, e: Entry)
    requires Wf(es) && Live(e) && EntryOk(e) && EntryKey(e) !in View(es)
    ensures Wf(es + [e]) && View(es + [e]) == View(es)[EntryKey(e) := EntryAddrs(e)]
  {
    assert (es + [e])[..|es|] == es;
  }

  /** There are never more keys than entries, and as many only if nothing is deleted. */
  lemma {:induction false} ViewSize(es: seq<Entry>)
    requires Wf(es)
    ensures |View(es)| <= |es|
    ensures |View(es)| == |es| <==> forall i | 0 <= i < |es| :: Live(es[i])
  {
    if es != [] {
      var init := es[..|es| - 1];
      ViewSize(init);
      assert forall i | 0 <= i < |init| :: init[i] == es[i];
    }
  }
}
