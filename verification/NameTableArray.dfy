/** nut of adaptor/name_udp_table.h, with the functions of name_udp_table.c as its methods. */
module NameTableArray {
  import opened NameTable

  /** A nut_entry pointer: a place in the buffer that was current when the pointer was made. */
  datatype EntryPtr = Null | At(buf: array<Entry>, idx: nat)

  /** nut_entry_namematch: compare from the last byte backwards. */
  method NameMatch(entry: Entry, name: seq<Byte>) returns (r: int)
    requires entry.nameLen <= MAX_NAMELEN
    ensures r == if EntryKey(entry) == KeyOf(name) then 1 else 0
  {
    var key, nlen := name, |name|;
    if nlen > MAX_NAMELEN {
      key := name[nlen - MAX_NAMELEN..];
      nlen := MAX_NAMELEN;
    }
    if nlen != entry.nameLen { return 0; }
    var idx := nlen - 1;
    while idx >= 0
      invariant -1 <= idx < nlen
      invariant forall k | idx < k < nlen :: key[k] == entry.name[k]
    {
      if key[idx] != entry.name[idx] {
        assert EntryKey(entry)[idx] == entry.name[idx];
        return 0;
      }
      idx := idx - 1;
    }
    return 1;
  }

  /** nut_entry_fdmatch */
  method FdMatch(entry: Entry, addr: SockAddr) returns (r: int)
    requires entry.addrNum <= MAX_ADDR_PERNAME
    ensures r == if HasFd(EntryAddrs(entry), addr) then 1 else 0
  {
    var idx := 0;
    while idx < entry.addrNum
      invariant idx <= entry.addrNum
      invariant forall k | 0 <= k < idx :: !SameFd(entry.addr[k], addr)
    {
      if entry.addr[idx].ip == addr.ip && entry.addr[idx].port == addr.port {
        assert SameFd(EntryAddrs(entry)[idx], addr);
        return 1;
      }
      idx := idx + 1;
    }
    return 0;
  }

  /** An entry with one more address. */
  lemma AddrAdded(e: Entry, a: SockAddr)
    requires EntryOk(e) && e.addrNum < MAX_ADDR_PERNAME && !HasFd(EntryAddrs(e), a)
    ensures var e': Entry := e.(addr := e.addr[e.addrNum := a], addrNum := e.addrNum + 1);
            EntryOk(e') && EntryKey(e') == EntryKey(e) && EntryAddrs(e') == EntryAddrs(e) + [a]
  {
    var e': Entry := e.(addr := e.addr[e.addrNum := a], addrNum := e.addrNum + 1);
    assert e'.addr[..e'.addrNum] == e.addr[..e.addrNum] + [a];
  }

  /** An entry written over: one address, and the name bytes over the front of the old ones. */
  function Fresh(e: Entry, key: Key, a: SockAddr): (e': Entry)
    requires |key| <= MAX_NAMELEN
    ensures Live(e') && EntryOk(e') && EntryKey(e') == key && EntryAddrs(e') == [a]
  {
    var e' := Entry(|key|, 1, 0, key + e.name[|key|..], e.addr[0 := a]);
    assert e'.addr[..1] == [a];
    e'
  }

  /** Live entries stay where they are, under their names. */
  predicate KeepsLive(es: seq<Entry>, es': seq<Entry>) {
    && |es| <= |es'|
    && forall i | 0 <= i < |es| && Live(es[i]) :: Live(es'[i]) && EntryKey(es'[i]) == EntryKey(es[i])
  }

  /** The entries and the map with one more entry, where none is deleted. */
  lemma FullAppend(es: seq<Entry>, e: Entry) returns (es': seq<Entry>, table: Table)
    requires Wf(es) && Live(e) && EntryOk(e) && EntryKey(e) !in View(es)
    requires forall i | 0 <= i < |es| :: Live(es[i])
    ensures es' == es + [e] && Wf(es') && View(es') == table == View(es)[EntryKey(e) := EntryAddrs(e)]
    ensures |View(es)| == |es| && |table| == |es| + 1 && KeepsLive(es, es')
  {
    es' := es + [e];
    ViewSize(es);
    ViewAppend(es, e);
    ViewSize(es');
    table := View(es');
  }

  class Nut {
    var tableCap: nat
    var entryNum: nat
    var entries: array<Entry>

    ghost var contents: Table   // the map the table stands for

    // what happened so far
    ghost var initCap: nat
    ghost var copied: nat   // entries copied by all calls of nut_grow
    ghost var peak: nat     // largest number of keys held at one time

    ghost predicate Valid()
      reads this, entries
    {
      && entries.Length == tableCap && 0 < tableCap && entryNum <= tableCap
      && Wf(entries[..entryNum]) && contents == View(entries[..entryNum])
      && entryNum == peak && |contents| <= peak
      && initCap <= tableCap <= Max(initCap, 2 * entryNum) && copied <= 5 * (tableCap - initCap)
    }

    /** Every name has 1 to 8 addresses, no two alike. */
    lemma ContentsOk()
      requires Valid()
      ensures TableOk(contents)
    {
      ViewOk(entries[..entryNum]);
    }

    /** nut_create */
    constructor (initSize: int)
      ensures Valid() && fresh(entries) && contents == map[]
      ensures tableCap == initCap == (if initSize <= 0 || initSize >= 32 then 32 else initSize)
      ensures peak == copied == 0
    {
      var size := if initSize <= 0 || initSize >= 32 then 32 else initSize;
      tableCap, entryNum := size, 0;
      entries := new Entry[size];
      initCap, copied, peak, contents := size, 0, 0, map[];
    }

    /** nut_grow: double below 256, then a quarter more; called when the array is full. */
    method Grow()
      requires Valid() && entryNum == tableCap
      modifies this`tableCap, this`entries, this`copied
      ensures fresh(entries) && entries.Length == tableCap == GrownCap(old(tableCap))
      ensures old(tableCap) < tableCap <= 2 * old(tableCap)
      ensures entries[..entryNum] == old(entries[..entryNum])
      ensures copied == old(copied) + entryNum && copied <= 5 * (tableCap - initCap)
    {
      var targetCap := if tableCap < 256 then tableCap * 2 else tableCap + tableCap / 4;
      var targetBuf := new Entry[targetCap];
      forall i | 0 <= i < entryNum { targetBuf[i] := entries[i]; }
      assert targetBuf[..entryNum] == entries[..entryNum];
      entries := targetBuf;
      tableCap := targetCap;
      copied := copied + entryNum;
    }

    /** The scan of nut_set and nut_get: the live entry for a name, or where a new one may go. */
    method Find(name: seq<Byte>) returns (at: nat, firstDeleted: int)
      requires Valid()
      ensures at <= entryNum && -1 <= firstDeleted < entryNum
      ensures at < entryNum ==> Live(entries[at]) && EntryKey(entries[at]) == KeyOf(name)
      ensures at == entryNum ==> KeyOf(name) !in contents
      ensures at == entryNum && firstDeleted >= 0 ==> !Live(entries[firstDeleted])
      ensures at == entryNum && firstDeleted == -1 ==> forall k | 0 <= k < entryNum :: Live(entries[k])
    {
      ghost var es := entries[..entryNum];
      firstDeleted := -1;
      at := 0;
      while at < entryNum
        invariant at <= entryNum && -1 <= firstDeleted < at
        invariant firstDeleted >= 0 ==> !Live(entries[firstDeleted])
        invariant firstDeleted == -1 ==> forall k | 0 <= k < at :: Live(entries[k])
        invariant forall k | 0 <= k < at && Live(es[k]) :: EntryKey(es[k]) != KeyOf(name)
      {
        assert entries[at] == es[at];
        if Live(es[at]) { ViewAt(es, at); }
        if entries[at].deleted == 1 {
          if firstDeleted == -1 { firstDeleted := at; }
        } else {
          var m := NameMatch(entries[at], name);
          if m > 0 { return; }
        }
        at := at + 1;
      }
      ViewMiss(es, KeyOf(name));
    }

    /** nut_set: note that addr waits for name. */
    method Set(name: seq<Byte>, addr: SockAddr) returns (r: int)
      requires Valid()
      modifies this, entries
      ensures Valid() && (entries == old(entries) || fresh(entries))
      ensures r == SetAnswer(old(contents), KeyOf(name), addr)
      ensures contents == SetTable(old(contents), KeyOf(name), addr)
      ensures SetRightly(old(contents), KeyOf(name), addr, r, contents)
      ensures peak == Max(old(peak), |contents|) && initCap == old(initCap)
      ensures entries != old(entries) <==> Grows(old(contents), old(peak), old(tableCap), KeyOf(name))
      ensures tableCap == if entries != old(entries) then GrownCap(old(tableCap)) else old(tableCap)
      ensures KeepsLive(old(entries[..entryNum]), entries[..entryNum])
    {
      hide View, Wf, SetRightly;
      assert [] + [addr] == [addr];
      SetIsRight(contents, KeyOf(name), addr);
      ViewSize(entries[..entryNum]);
      var at, firstDeleted := Find(name);
      if at < entryNum {
        ViewAt(entries[..entryNum], at);
        r := AddAddr(at, addr);
      } else if firstDeleted >= 0 {
        NewEntryAt(firstDeleted, KeyOf(name), addr);
        r := 1;
      } else {
        NewEntryAtEnd(KeyOf(name), addr);
        r := 1;
      }
    }

    /** The name is known: add the address unless it is there or there is no room. */
    method AddAddr(at: nat, addr: SockAddr) returns (r: int)
      requires Valid() && at < entryNum && Live(entries[at])
      modifies entries, this`contents
      ensures Valid()
      ensures var key := old(EntryKey(entries[at]));
              && r == SetAnswer(old(contents), key, addr) && contents == SetTable(old(contents), key, addr)
              && SetRightly(old(contents), key, addr, r, contents)
      ensures |contents| == old(|contents|)
      ensures KeepsLive(old(entries[..entryNum]), entries[..entryNum])
    {
      hide View, Wf, SetRightly;
      ghost var es := entries[..entryNum];
      ViewAt(es, at);
      SetIsRight(contents, EntryKey(entries[at]), addr);
      var found := FdMatch(entries[at], addr);
      if found > 0 { return 0; }
      if entries[at].addrNum == MAX_ADDR_PERNAME { return -1; }
      AddrAdded(entries[at], addr);
      var e := entries[at];
      var e': Entry := e.(addr := e.addr[e.addrNum := addr], addrNum := e.addrNum + 1);
      ViewWrite(es, at, e');
      entries[at] := e';
      contents := View(es[at := e']);
      assert entries[..entryNum] == es[at := e'];
      return 1;
    }

    /** The name is new and takes the place of a deleted entry. */
    method NewEntryAt(at: nat, key: Key, addr: SockAddr)
      requires Valid() && at < entryNum && !Live(entries[at]) && |key| <= MAX_NAMELEN && key !in contents
      modifies entries, this`contents
      ensures Valid() && contents == old(contents)[key := [addr]] && |contents| <= peak
      ensures KeepsLive(old(entries[..entryNum]), entries[..entryNum])
    {
      ghost var es := entries[..entryNum];
      var e' := Fresh(entries[at], key, addr);
      ViewWrite(es, at, e');
      ViewSize(es[at := e']);
      entries[at] := e';
      contents := View(es[at := e']);
      assert entries[..entryNum] == es[at := e'];
    }

    /** The name is new and no entry is deleted: append, growing first if the array is full. */
    method NewEntryAtEnd(key: Key, addr: SockAddr)
      requires Valid() && (forall k | 0 <= k < entryNum :: Live(entries[k])) && |key| <= MAX_NAMELEN && key !in contents
      modifies this, entries
      ensures Valid() && (entries == old(entries) || fresh(entries))
      ensures contents == old(contents)[key := [addr]]
      ensures peak == |contents| == old(peak) + 1 == old(|contents|) + 1 && initCap == old(initCap)
      ensures entries != old(entries) <==> old(entryNum == tableCap)
      ensures tableCap == if entries != old(entries) then GrownCap(old(tableCap)) else old(tableCap)
      ensures KeepsLive(old(entries[..entryNum]), entries[..entryNum])
    {
      hide View, Wf, KeepsLive;
      ghost var es := entries[..entryNum];
      if entryNum == tableCap { Grow(); }
      assert entries[..entryNum] == es;
      Append(key, addr);
    }

    /** There is room behind the last entry. */
    method Append(key: Key, addr: SockAddr)
      requires Valid() && entryNum < tableCap && (forall k | 0 <= k < entryNum :: Live(entries[k]))
      requires |key| <= MAX_NAMELEN && key !in contents
      modifies this`entryNum, this`peak, this`contents, entries
      ensures Valid() && contents == old(contents)[key := [addr]]
      ensures peak == |contents| == old(peak) + 1 == old(|contents|) + 1
      ensures KeepsLive(old(entries[..entryNum]), entries[..entryNum])
    {
      hide View, Wf, KeepsLive;
      ghost var es := entries[..entryNum];
      var e' := Fresh(entries[entryNum], key, addr);
      ghost var es', table := FullAppend(es, e');
      entries[entryNum] := e';
      entryNum := entryNum + 1;
      assert entries[..entryNum] == es';
      peak := entryNum;
      contents := table;
    }

    /** nut_get */
    method Get(name: seq<Byte>) returns (p: EntryPtr)
      requires Valid()
      ensures p == Null <==> KeyOf(name) !in contents
      ensures p.At? ==> p.buf == entries && p.idx < entryNum && Live(entries[p.idx])
                        && EntryKey(entries[p.idx]) == KeyOf(name)
                        && EntryAddrs(entries[p.idx]) == contents[KeyOf(name)]
    {
      var at, firstDeleted := Find(name);
      if at == entryNum { return Null; }
      ViewAt(entries[..entryNum], at);
      return At(entries, at);
    }

    /** nut_del, on a pointer into the current buffer. */
    method Del(p: EntryPtr)
      requires Valid() && p.At? && p.buf == entries && p.idx < entryNum
      modifies entries, this`contents
      ensures Valid()
      ensures contents ==
              if old(Live(entries[p.idx])) then old(contents) - {old(EntryKey(entries[p.idx]))} else old(contents)
    {
      ghost var es := entries[..entryNum];
      var e: Entry := entries[p.idx].(deleted := 1);
      ViewDelete(es, p.idx, e);
      ViewSize(es[p.idx := e]);
      p.buf[p.idx] := e;
      contents := View(es[p.idx := e]);
      assert entries[..entryNum] == es[p.idx := e];
    }
  }
}
