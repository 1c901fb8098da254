/** pkg/idgen/routedflake.go, machine number resolution: the ordinal at the end of a StatefulSet pod
    name, with no hash fallback. */
module MachineNumber {
  import opened GoText
  import opened BitFields

  /** `ordinalFromName`: the number after the last dash. */
  function OrdinalFromName(name: string): Option<int> {
    var idx := LastIndex(name, '-');
    if idx < 0 then None
    else
      match ParseInt(name[idx + 1..])
      case None => None
      case Some(v) => if v < 0 then None else Some(v)
  }

  /** `ResolveMachineID` over the three environment values, each empty when unset. */
  function Resolve(machineId: string, podName: string, hostname: string): Option<int> {
    if TrimSpace(machineId) != "" then
      match ParseInt(TrimSpace(machineId))
      case None => None
      case Some(v) => if v < 0 then None else Some(v)
    else if OrdinalFromName(TrimSpace(podName)).Some? then OrdinalFromName(TrimSpace(podName))
    else OrdinalFromName(TrimSpace(hostname))
  }

  /** The priority order, and nothing else: an explicit number decides alone and must be one, then the
      pod's ordinal, then the host's, and without any of them there is no number. */
  lemma ResolveOrder(machineId: string, podName: string, hostname: string, n: int)
    ensures Resolve(machineId, podName, hostname) == Some(n) <==>
      var explicit, pod, host := TrimSpace(machineId), TrimSpace(podName), TrimSpace(hostname);
      || (explicit != "" && n >= 0 && ParseInt(explicit) == Some(n))
      || (explicit == "" && OrdinalFromName(pod) == Some(n))
      || (explicit == "" && OrdinalFromName(pod) == None && OrdinalFromName(host) == Some(n))
  {
  }

  /** A resolved number is never negative. */
  lemma ResolvedIsOrdinal(machineId: string, podName: string, hostname: string)
    ensures Resolve(machineId, podName, hostname).Some? ==> Resolve(machineId, podName, hostname).value >= 0
  {
  }

  lemma DashEndsBase(name: string, base: string, tail: string)
    requires name == base + "-" + tail && '-' !in tail
    ensures LastIndex(name, '-') == |base| && name[|base| + 1..] == tail
  {
    var k := |base|;
    assert |name| == k + 1 + |tail| && name[k] == '-' && name[k + 1..] == tail;
    NoDashAfter(name, tail, k + 1);
    LastIndexIs(name, '-', k);
  }

  lemma NoDashAfter(name: string, tail: string, k: nat)
    requires k <= |name| && name[k..] == tail && '-' !in tail
    ensures forall j :: k <= j < |name| ==> name[j] != '-'
  {
    forall j | k <= j < |name| ensures name[j] != '-' {
      assert name[j] == tail[j - k];
    }
  }

  /** A pod named `<name>-<ordinal>` resolves to its ordinal, whatever dashes the name has. */
  lemma OrdinalRoundTrip(base: string, n: nat)
    requires n < TWO63
    ensures OrdinalFromName(base + "-" + FormatInt(n)) == Some(n)
  {
    var d := FormatInt(n);
    assert '-' !in d;
    DashEndsBase(base + "-" + d, base, d);
    ParseOfFormat(n);
  }

  /** The last segment is accepted exactly when it is a run of digits below 2^63, optionally after one
      plus sign; the source's comment asks for digits only. */
  lemma OrdinalAccepts(base: string, tail: string)
    requires '-' !in tail
    ensures var body := if tail != [] && tail[0] == '+' then tail[1..] else tail;
      OrdinalFromName(base + "-" + tail).Some? <==> ParseDigits(body).Some? && ParseDigits(body).value < TWO63
  {
    DashEndsBase(base + "-" + tail, base, tail);
  }

  /** A ReplicaSet suffix with any letter in it is rejected even if it ends in digits. */
  lemma LettersRejected(base: string, tail: string, i: nat)
    requires '-' !in tail && i < |tail| && !IsDigit(tail[i]) && tail[i] != '+'
    ensures OrdinalFromName(base + "-" + tail) == None
  {
    OrdinalAccepts(base, tail);
    if tail[0] == '+' { assert tail[1..][i - 1] == tail[i]; }
  }

  lemma PlusSignAccepted()
    ensures OrdinalFromName("media-rpc-+3") == Some(3)
  {
    DashEndsBase("media-rpc-+3", "media-rpc", "+3");
    assert "+3"[1..] == "3";
    assert ParseDigits("3") == Some(3);
  }
}
