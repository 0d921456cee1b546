/** pkg/utils/utils.go: the membership list, the two string filters and the orphan test. */
module Utils {
  import opened Text
  import opened Lists

  const SEATA_FINALIZER := "cleanUpSeataPVC"

  // ---------------------------------------------------------------- membership list

  /** The address of one raft node: <name>-<i>.<service>:<port>. */
  function Address(name: string, i: int, service: string, port: int): string {
    name + "-" + DecInt(i) + "." + service + ":" + DecInt(port)
  }

  function Members(name: string, replicas: int, service: string, port: int): (m: seq<string>)
    ensures |m| == if replicas > 0 then replicas else 0
    ensures forall i :: 0 <= i < |m| ==> m[i] == Address(name, i, service, port)
  {
    if replicas <= 0 then [] else Members(name, replicas - 1, service, port) + [Address(name, replicas - 1, service, port)]
  }

  /** The membership list as one string. */
  function MemberList(name: string, replicas: int, service: string, port: int): string {
    Join(Members(name, replicas, service, port), ',')
  }

  method ConcatRaftServerAddress(name: string, replicas: int, service: string, port: int) returns (addr: string)
    ensures addr == MemberList(name, replicas, service, port)
  {
    addr := "";
    var i := 0;
    while i < replicas
      invariant 0 <= i && (i == 0 || i <= replicas)
      invariant addr == if i == 0 then "" else MemberList(name, i, service, port) + ","
    {
      var member := Address(name, i, service, port);
      JoinSnoc(Members(name, i, service, port), member, ',');
      addr := addr + member + ",";
      i := i + 1;
    }
    if |addr| > 0 {
      addr := addr[..|addr| - 1];
    }
  }

  /** What a raft node reads out of one address: cut at the last ':', then the last '.', then the last '-'. */
  datatype Parsed = Parsed(name: string, ordinal: int, service: string, port: int)

  function ParseAddress(s: string): Option<Parsed> {
    var colon := LastIndex(s, ':');
    if colon < 0 then None else
    var host := s[..colon];
    var dot := LastIndex(host, '.');
    if dot < 0 then None else
    var pod := host[..dot];
    var dash := LastIndex(pod, '-');
    if dash < 0 then None else
    match (Atoi(pod[dash + 1..]), Atoi(s[colon + 1..]))
    case (Some(i), Some(p)) => Some(Parsed(pod[..dash], i, host[dot + 1..], p))
    case _ => None
  }

  lemma DigitsFree(n: nat)
    ensures Free(Dec(n), '-') && Free(Dec(n), ',') && Free(Dec(n), '.') && Free(Dec(n), ':')
  {}

  /** Cutting at the last occurrence of c takes a string apart exactly where it was put together. */
  lemma CutLast(front: string, c: char, back: string)
    requires Free(back, c)
    ensures var s := front + [c] + back;
            LastIndex(s, c) == |front| && s[..|front|] == front && s[|front| + 1..] == back
  {
    LastIndexUnique(front, c, back);
  }

  lemma AddressParts(name: string, i: nat, service: string, port: int)
    ensures Address(name, i, service, port) == name + ['-'] + Dec(i) + ['.'] + service + [':'] + DecInt(port)
  {
  }

  /** An address reads back whatever the name holds; only a dot in the service name would be ambiguous. */
  lemma AddressReadsBack(name: string, i: nat, service: string, port: int)
    requires i < INT64_LIMIT && IsInt32(port)
    requires Free(service, '.')
    ensures ParseAddress(Address(name, i, service, port)) == Some(Parsed(name, i, service, port))
  {
    AddressParts(name, i, service, port);
    DigitsFree(i);
    CutLast(name + ['-'] + Dec(i) + ['.'] + service, ':', DecInt(port));
    CutLast(name + ['-'] + Dec(i), '.', service);
    CutLast(name, '-', Dec(i));
    AtoiUndoesDecInt(i);
    AtoiUndoesDecInt(port);
  }

  lemma AddressCommaFree(name: string, i: nat, service: string, port: int)
    requires Free(name, ',') && Free(service, ',')
    ensures Free(Address(name, i, service, port), ',')
  {
    DigitsFree(i);
  }

  lemma MiddleTells(front: string, a: string, b: string, back: string)
    requires front + a + back == front + b + back
    ensures a == b
  {
    var s := front + a + back;
    assert s[|front|..|s| - |back|] == a && s[|front|..|s| - |back|] == b;
  }

  /** Two addresses that agree up to the service and port carry the same ordinal. */
  lemma AddressInjective(name: string, i: nat, j: nat, service: string, port: int)
    requires Address(name, i, service, port) == Address(name, j, service, port)
    ensures i == j
  {
    var back := ['.'] + service + [':'] + DecInt(port);
    AddressParts(name, i, service, port);
    AddressParts(name, j, service, port);
    assert forall k: nat :: name + ['-'] + Dec(k) + ['.'] + service + [':'] + DecInt(port) == name + ['-'] + Dec(k) + back;
    MiddleTells(name + ['-'], Dec(i), Dec(j), back);
    DecReadsBack(i);
    DecReadsBack(j);
  }

  /** Splitting the printed list gives one entry per replica, in order, all different. */
  lemma MemberListSplits(name: string, replicas: int, service: string, port: int)
    requires Free(name, ',') && Free(service, ',')
    ensures replicas <= 0 ==> MemberList(name, replicas, service, port) == ""
    ensures replicas >= 1 ==> Split(MemberList(name, replicas, service, port), ',') == Members(name, replicas, service, port)
    ensures var m := Members(name, replicas, service, port);
            forall i, j :: 0 <= i < j < |m| ==> m[i] != m[j]
  {
    var m := Members(name, replicas, service, port);
    if replicas >= 1 {
      forall i | 0 <= i < |m| ensures Free(m[i], ',') {
        AddressCommaFree(name, i, service, port);
      }
      SplitUndoesJoin(m, ',');
    }
    forall i, j | 0 <= i < j < |m| ensures m[i] != m[j] {
      if m[i] == m[j] {
        AddressInjective(name, i, j, service, port);
        assert false;
      }
    }
  }

  /** The list determines the cluster it was printed from: name, size, service and port. */
  lemma MemberListDetermines(name: string, replicas: int, service: string, port: int,
                             name': string, replicas': int, service': string, port': int)
    requires Free(name, ',') && Free(service, ',') && Free(service, '.')
    requires Free(name', ',') && Free(service', ',') && Free(service', '.')
    requires IsInt32(port) && IsInt32(port') && replicas >= 1
    requires MemberList(name, replicas, service, port) == MemberList(name', replicas', service', port')
    ensures name == name' && replicas == replicas' && service == service' && port == port'
  {
    MemberListSplits(name, replicas, service, port);
    MemberListSplits(name', replicas', service', port');
    assert Members(name, replicas, service, port)[0] != "";
    assert replicas' >= 1;
    assert Members(name, replicas, service, port)[0] == Members(name', replicas', service', port')[0];
    AddressReadsBack(name, 0, service, port);
    AddressReadsBack(name', 0, service', port');
  }

  // ---------------------------------------------------------------- string filters

  method ContainsString(slice: seq<string>, str: string) returns (found: bool)
    ensures found <==> str in slice
  {
    for i := 0 to |slice|
      invariant str !in slice[..i]
    {
      if slice[i] == str { return true; }
    }
    return false;
  }

  /** The slice without any occurrence of str, the rest in order. */
  function Removed(slice: seq<string>, str: string): seq<string> {
    Filter(slice, x => x != str)
  }

  method RemoveString(slice: seq<string>, str: string) returns (result: seq<string>)
    ensures result == Removed(slice, str)
  {
    result := [];
    for i := 0 to |slice|
      invariant result == Removed(slice[..i], str)
    {
      assert slice[..i + 1][..i] == slice[..i];
      if slice[i] != str {
        result := result + [slice[i]];
      }
    }
    assert slice[..|slice|] == slice;
  }

  /** Nothing but the occurrences of str is lost. */
  lemma {:induction false} RemovedContents(slice: seq<string>, str: string)
    ensures multiset(Removed(slice, str)) == multiset(slice)[str := 0]
  {
    if slice != [] {
      RemovedContents(slice[..|slice| - 1], str);
      assert slice == slice[..|slice| - 1] + [slice[|slice| - 1]];
    }
  }

  lemma RemovedAbsent(slice: seq<string>, str: string)
    requires str !in slice
    ensures Removed(slice, str) == slice
  {
    FilterAll(slice, x => x != str);
  }

  /** The slice without the first occurrence of str, which is what the comment on RemoveString promises. */
  function FirstRemoved(slice: seq<string>, str: string): seq<string> {
    if slice == [] then []
    else
      var front, last := slice[..|slice| - 1], slice[|slice| - 1];
      if last == str && str !in front then front else FirstRemoved(front, str) + [last]
  }

  lemma {:induction false} FirstRemovedSize(slice: seq<string>, str: string)
    ensures |FirstRemoved(slice, str)| == if str in slice then |slice| - 1 else |slice|
    ensures multiset(slice)[str] <= 1 ==> FirstRemoved(slice, str) == Removed(slice, str)
  {
    if slice != [] {
      var front, last := slice[..|slice| - 1], slice[|slice| - 1];
      assert slice == front + [last];
      FirstRemovedSize(front, str);
      if last == str && str !in front {
        RemovedAbsent(front, str);
      }
    }
  }

  /** The comment is right exactly where the string occurs at most once. */
  lemma RemoveStringIsFirstExactly(slice: seq<string>, str: string)
    ensures Removed(slice, str) == FirstRemoved(slice, str) <==> multiset(slice)[str] <= 1
  {
    FirstRemovedSize(slice, str);
    RemovedContents(slice, str);
    assert |Removed(slice, str)| == |multiset(Removed(slice, str))| == |slice| - multiset(slice)[str];
  }

  /** Adding a finalizer that was absent and removing it again leaves the list as it was. */
  lemma RemoveUndoesAppend(slice: seq<string>, str: string)
    requires str !in slice
    ensures Removed(slice + [str], str) == slice
  {
    RemovedAbsent(slice, str);
    assert (slice + [str])[..|slice|] == slice;
  }

  // ---------------------------------------------------------------- orphaned volume claims

  const PVC_PREFIX := "seata-store-"

  /** The name the StatefulSet controller gives the claim of pod <name>-<k>. */
  function PvcName(name: string, k: nat): string {
    PVC_PREFIX + name + "-" + Dec(k)
  }

  predicate IsPVCOrphan(pvcName: string, replicas: int) {
    var dash := LastIndex(pvcName, '-');
    if dash == -1 then false
    else
      match Atoi(pvcName[dash + 1..])
      case None => false
      case Some(ordinal) => Truncate32(ordinal) >= replicas
  }

  /** Parsing the ordinal undoes printing the name: exact, for every server name and ordinal. */
  lemma OrphanExactly(name: string, k: nat, replicas: int)
    ensures IsPVCOrphan(PvcName(name, k), replicas) <==> k < INT64_LIMIT && Truncate32(k) >= replicas
    ensures k < INT32_LIMIT ==> (IsPVCOrphan(PvcName(name, k), replicas) <==> k >= replicas)
    ensures IsPVCOrphan(PvcName(name, k), replicas) ==> k >= replicas
  {
    var front := PVC_PREFIX + name;
    assert PvcName(name, k) == front + ['-'] + Dec(k);
    DigitsFree(k);
    LastIndexUnique(front, '-', Dec(k));
    assert PvcName(name, k)[|front| + 1..] == Dec(k);
    AtoiUndoesDecInt(k);
  }

  lemma TruncatedNonNegative(k: nat)
    ensures Truncate32(k) == if k % (2 * INT32_LIMIT) < INT32_LIMIT then k % (2 * INT32_LIMIT)
                             else k % (2 * INT32_LIMIT) - 2 * INT32_LIMIT
  {
  }

  /** Where the 32-bit truncation bites: the test agrees with the true ordinal exactly below 2^31, and
      above it only where the low 32 bits happen to read as a number from replicas to 2^31-1. */
  lemma OrphanTrueExactly(name: string, k: nat, replicas: nat)
    requires replicas < INT32_LIMIT
    ensures (IsPVCOrphan(PvcName(name, k), replicas) <==> k >= replicas) <==>
            k < INT32_LIMIT || (k < INT64_LIMIT && replicas <= k % (2 * INT32_LIMIT) < INT32_LIMIT)
  {
    OrphanExactly(name, k, replicas);
    TruncatedNonNegative(k);
  }

  /** Any name at all: more replicas mean fewer orphans, and an unreadable tail is never one. */
  lemma OrphanAntitone(pvcName: string, fewer: int, more: int)
    requires fewer <= more
    ensures IsPVCOrphan(pvcName, more) ==> IsPVCOrphan(pvcName, fewer)
    ensures Free(pvcName, '-') ==> !IsPVCOrphan(pvcName, fewer)
    ensures forall front, tail :: pvcName == front + ['-'] + tail && Free(tail, '-') && Atoi(tail) == None
              ==> !IsPVCOrphan(pvcName, fewer)
  {
    forall front, tail | pvcName == front + ['-'] + tail && Free(tail, '-') && Atoi(tail) == None
      ensures !IsPVCOrphan(pvcName, fewer)
    {
      LastIndexUnique(front, '-', tail);
      assert pvcName[|front| + 1..] == tail;
    }
  }

  /** Claim names of different servers, or of different pods, never coincide. */
  lemma PvcNameInjective(name: string, k: nat, name': string, k': nat)
    requires PvcName(name, k) == PvcName(name', k')
    ensures name == name' && k == k'
  {
    var s := PvcName(name, k);
    assert s == (PVC_PREFIX + name) + ['-'] + Dec(k) && s == (PVC_PREFIX + name') + ['-'] + Dec(k');
    DigitsFree(k);
    DigitsFree(k');
    LastIndexUnique(PVC_PREFIX + name, '-', Dec(k));
    LastIndexUnique(PVC_PREFIX + name', '-', Dec(k'));
    assert s[|PVC_PREFIX|..][..|name|] == name && s[|PVC_PREFIX|..][..|name'|] == name';
    assert s[|PVC_PREFIX + name| + 1..] == Dec(k) && s[|PVC_PREFIX + name'| + 1..] == Dec(k');
    DecReadsBack(k);
    DecReadsBack(k');
  }
}
