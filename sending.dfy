/** The send-decision logic that the TCP and UDP endpoints get from the `TCP_SEND_MSG`,
    `TCP_SYNC_SEND_MSG`, `UDP_SEND_MSG` and `UDP_SYNC_SEND_MSG` macros and their `_SAFE_`
    retrying forms. What the endpoint's collaborators answer (the send buffer, the packer, the
    direct send and `is_ready`) is an `Oracle`; a send returns its result together with the
    collaborator calls it made, in order. `native` is the macro's NATIVE argument: `send_msg`
    has it false, `send_native_msg` true. */
module Sending {
  import opened Promises

  /** The answers of the collaborators during one send attempt. */
  datatype Oracle = Oracle(
    bufferAvailable: bool,       // is_send_buffer_available()
    packed: bool,                // the bool result of the packer's pack_msg overloads
    sent: bool,                  // do_direct_send_msg(...)
    syncSent: SyncCallResult,    // do_direct_sync_send_msg(..., duration)
    ready: bool)                 // is_ready()

  /** `udp::endpoint`, an opaque peer address. */
  type PeerAddr = nat

  /** A collaborator call made by a send. */
  datatype Call =
    | PackOne                           // pack_msg(msg, msg_can)
    | PackTwo                           // pack_msg(msg1, msg2, msg_can)
    | PackBatch                         // pack_msg(msg_can, out)
    | PackFragments(native: bool)       // pack_msg(pstr, len, num, NATIVE)
    | DirectSend                        // do_direct_send_msg(...)
    | DirectSyncSend(duration: nat)     // do_direct_sync_send_msg(..., duration)
    | DirectSendTo(peer: PeerAddr)      // do_direct_send_msg(udp_msg(peer_addr, ...))
    | DirectSyncSendTo(peer: PeerAddr, duration: nat)

  /** The overloads a TCP send macro defines: one message, two messages, a container of
      messages, and `num` fragments `pstr[i]`/`len[i]` (which the `(pstr, len)` and `Buffer`
      overloads forward to). */
  datatype Form = OneMsg | TwoMsgs | Batch | Fragments

  /** The result of a send and the collaborator calls it made. */
  datatype Sent<R> = Sent(result: R, calls: seq<Call>)

  /** A send goes ahead only when overflow is allowed or the send buffer has room. */
  predicate Admitted(canOverflow: bool, o: Oracle)
  {
    canOverflow || o.bufferAvailable
  }

  predicate IsPack(c: Call)
  {
    c.PackOne? || c.PackTwo? || c.PackBatch? || c.PackFragments?
  }

  /** `TCP_SEND_MSG(FUNNAME, NATIVE)`, the overload chosen by `form`. A one-message send whose
      packing fails calls `FUNNAME(msg, can_overflow)`, which resolves to the `Buffer`
      overload and so to the fragment form. */
  function TcpSend(form: Form, native: bool, canOverflow: bool, o: Oracle): (r: Sent<bool>)
    ensures r.calls == [] <==> !Admitted(canOverflow, o)
    ensures r.result ==> DirectSend in r.calls
    decreases if form == OneMsg then 1 else 0
  {
    if !Admitted(canOverflow, o) then Sent(false, [])
    else match form
      case OneMsg =>
        if native then Sent(o.sent, [DirectSend])
        else if o.packed then Sent(o.sent, [PackOne, DirectSend])
        else var f := TcpSend(Fragments, native, canOverflow, o); Sent(f.result, [PackOne] + f.calls)
      case TwoMsgs =>
        if native then Sent(true, [DirectSend, DirectSend])
        else if o.packed then Sent(o.sent, [PackTwo, DirectSend])
        else Sent(false, [PackTwo])
      case Batch =>
        if native then Sent(o.sent, [DirectSend])
        else if o.packed then Sent(o.sent, [PackBatch, DirectSend])
        else Sent(false, [PackBatch])
      case Fragments =>
        Sent(o.sent, [PackFragments(native), DirectSend])
  }

  /** `TCP_SYNC_SEND_MSG(FUNNAME, NATIVE)`: as `TcpSend`, with `do_direct_sync_send_msg`. */
  function TcpSyncSend(form: Form, native: bool, duration: nat, canOverflow: bool, o: Oracle): (r: Sent<SyncCallResult>)
    ensures r.calls == [] <==> !Admitted(canOverflow, o)
    ensures r.result != NotApplicable && r.result != o.syncSent ==> form == TwoMsgs && native
    decreases if form == OneMsg then 1 else 0
  {
    if !Admitted(canOverflow, o) then Sent(NotApplicable, [])
    else match form
      case OneMsg =>
        if native then Sent(o.syncSent, [DirectSyncSend(duration)])
        else if o.packed then Sent(o.syncSent, [PackOne, DirectSyncSend(duration)])
        else var f := TcpSyncSend(Fragments, native, duration, canOverflow, o); Sent(f.result, [PackOne] + f.calls)
      case TwoMsgs =>
        if native then Sent(Success, [DirectSyncSend(duration), DirectSyncSend(duration)])
        else if o.packed then Sent(o.syncSent, [PackTwo, DirectSyncSend(duration)])
        else Sent(NotApplicable, [PackTwo])
      case Batch =>
        if native then Sent(o.syncSent, [DirectSyncSend(duration)])
        else if o.packed then Sent(o.syncSent, [PackBatch, DirectSyncSend(duration)])
        else Sent(NotApplicable, [PackBatch])
      case Fragments =>
        Sent(o.syncSent, [PackFragments(native), DirectSyncSend(duration)])
  }

  /** `UDP_SEND_MSG(FUNNAME, NATIVE)`: every UDP overload packs the fragments into one
      message addressed to `peer` (the endpoint's own `peer_addr` when none is given). */
  function UdpSend(native: bool, peer: PeerAddr, canOverflow: bool, o: Oracle): (r: Sent<bool>)
    ensures r.calls == [] <==> !Admitted(canOverflow, o)
    ensures r.result <==> Admitted(canOverflow, o) && o.sent
  {
    if !Admitted(canOverflow, o) then Sent(false, [])
    else Sent(o.sent, [PackFragments(native), DirectSendTo(peer)])
  }

  /** `UDP_SYNC_SEND_MSG(FUNNAME, NATIVE)`. */
  function UdpSyncSend(native: bool, peer: PeerAddr, duration: nat, canOverflow: bool, o: Oracle): (r: Sent<SyncCallResult>)
    ensures r.calls == [] <==> !Admitted(canOverflow, o)
    ensures r.result == (if Admitted(canOverflow, o) then o.syncSent else NotApplicable)
  {
    if !Admitted(canOverflow, o) then Sent(NotApplicable, [])
    else Sent(o.syncSent, [PackFragments(native), DirectSyncSendTo(peer, duration)])
  }

  /** A refused send, in every form, fails without calling the packer or sending anything. */
  lemma RefusedSendCallsNothing(form: Form, native: bool, peer: PeerAddr, duration: nat, canOverflow: bool, o: Oracle)
    requires !canOverflow && !o.bufferAvailable
    ensures TcpSend(form, native, canOverflow, o) == Sent(false, [])
    ensures TcpSyncSend(form, native, duration, canOverflow, o) == Sent(NotApplicable, [])
    ensures UdpSend(native, peer, canOverflow, o) == Sent(false, [])
    ensures UdpSyncSend(native, peer, duration, canOverflow, o) == Sent(NotApplicable, [])
  {
  }

  /** An admitted native two-message send reports success whatever the direct sends answer. */
  lemma NativeTwoMsgsSucceeds(canOverflow: bool, duration: nat, o: Oracle)
    requires Admitted(canOverflow, o)
    ensures TcpSend(TwoMsgs, true, canOverflow, o).result
    ensures TcpSyncSend(TwoMsgs, true, duration, canOverflow, o).result == Success
  {
  }

  /** A two-message or container send whose packing fails reports failure and sends nothing. */
  lemma PackFailureFails(form: Form, canOverflow: bool, duration: nat, o: Oracle)
    requires form == TwoMsgs || form == Batch
    requires !o.packed
    ensures !TcpSend(form, false, canOverflow, o).result
    ensures TcpSyncSend(form, false, duration, canOverflow, o).result == NotApplicable
    ensures DirectSend !in TcpSend(form, false, canOverflow, o).calls
  {
  }

  /** A one-message send whose packing fails still goes out, as one fragment. */
  lemma OneMsgFallsBackToFragments(canOverflow: bool, duration: nat, o: Oracle)
    requires Admitted(canOverflow, o) && !o.packed
    ensures TcpSend(OneMsg, false, canOverflow, o) == Sent(o.sent, [PackOne, PackFragments(false), DirectSend])
    ensures TcpSyncSend(OneMsg, false, duration, canOverflow, o).result == o.syncSent
  {
  }

  /** Apart from the native two-message form, a send reports success only when the direct
      send it made, its last call, did. */
  lemma SuccessIsTheDirectSend(form: Form, native: bool, canOverflow: bool, o: Oracle)
    requires !(form == TwoMsgs && native)
    ensures var r := TcpSend(form, native, canOverflow, o);
      r.result ==> o.sent && r.calls != [] && r.calls[|r.calls| - 1] == DirectSend
  {
  }

  /** The number of packer calls in a trace. */
  function PackCount(calls: seq<Call>): nat
  {
    if calls == [] then 0 else (if IsPack(calls[0]) then 1 else 0) + PackCount(calls[1..])
  }

  /** A send calls the packer at most twice, and twice only when a non-native one-message
      send's packing fails and it falls back to the fragment overload, which packs again.
      Native sends other than the fragment form never call the packer. */
  lemma PackerCalls(form: Form, native: bool, duration: nat, canOverflow: bool, o: Oracle)
    ensures var n := PackCount(TcpSend(form, native, canOverflow, o).calls);
      && n <= 2
      && (n == 2 <==> Admitted(canOverflow, o) && form == OneMsg && !native && !o.packed)
      && (native && form != Fragments ==> n == 0)
    ensures PackCount(TcpSyncSend(form, native, duration, canOverflow, o).calls)
            == PackCount(TcpSend(form, native, canOverflow, o).calls)
  {
    var d, ds := DirectSend, DirectSyncSend(duration);
    assert PackCount([d]) == 0 && PackCount([ds]) == 0 by {
      assert PackCount([]) == 0;
    }
    assert PackCount([d, d]) == 0 && PackCount([ds, ds]) == 0 by {
      assert [d, d][1..] == [d] && [ds, ds][1..] == [ds];
    }
    var f := PackFragments(native);
    assert PackCount([f, d]) == 1 && PackCount([f, ds]) == 1 by {
      assert [f, d][1..] == [d] && [f, ds][1..] == [ds];
    }
    forall c: Call, rest: seq<Call> | IsPack(c)
      ensures PackCount([c] + rest) == 1 + PackCount(rest)
    {
      assert ([c] + rest)[1..] == rest;
    }
    assert PackCount([PackTwo]) == 1 && PackCount([PackBatch]) == 1 by {
      assert PackCount([]) == 0;
    }
  }

  /** A direct sync send that succeeds exactly when the direct send does. */
  predicate Agree(o: Oracle)
  {
    (o.syncSent == Success) == o.sent
  }

  /** The sync macros make the same decisions as the asynchronous ones: when the direct sends
      agree, the sync form succeeds exactly when the asynchronous form does, and calls the
      same collaborators. */
  lemma SyncMirrorsAsync(form: Form, native: bool, duration: nat, canOverflow: bool, o: Oracle)
    requires Agree(o)
    ensures (TcpSyncSend(form, native, duration, canOverflow, o).result == Success)
            == TcpSend(form, native, canOverflow, o).result
    ensures Unsync(TcpSyncSend(form, native, duration, canOverflow, o).calls)
            == TcpSend(form, native, canOverflow, o).calls
  {
    var d := DirectSyncSend(duration);
    assert Unsync([d]) == [DirectSend] + Unsync([]);
    assert Unsync([d, d]) == [DirectSend] + Unsync([d]);
    assert Unsync([PackFragments(native), d]) == [PackFragments(native)] + Unsync([d]);
    UnsyncPrefixed(PackOne, [d]);
    UnsyncPrefixed(PackTwo, [d]);
    UnsyncPrefixed(PackBatch, [d]);
    UnsyncPrefixed(PackOne, [PackFragments(native), d]);
  }

  /** A trace that starts with a packer call keeps it in front. */
  lemma UnsyncPrefixed(c: Call, calls: seq<Call>)
    requires IsPack(c)
    ensures Unsync([c] + calls) == [c] + Unsync(calls)
  {
  }

  /** A trace with every sync send replaced by the plain send. */
  function Unsync(calls: seq<Call>): (r: seq<Call>)
    ensures |r| == |calls|
  {
    if calls == [] then []
    else [match calls[0]
          case DirectSyncSend(_) => DirectSend
          case DirectSyncSendTo(peer, _) => DirectSendTo(peer)
          case c => c] + Unsync(calls[1..])
  }

  /** The pause of `SAFE_SEND_MSG_CHECK` between two attempts, in milliseconds. */
  const RetryIntervalMs: nat := 50

  /** The loop of the `_SAFE_SEND_MSG` macros: attempt the send with the oracle of round
      `attempts`; stop with true after a successful attempt; otherwise stop with false if the
      endpoint is not ready, or pause and try again. The rounds must reach a stopping point. */
  method RetryUntilSent(attempt: Oracle -> bool, rounds: seq<Oracle>) returns (ok: bool, attempts: nat, sleptMs: nat)
    requires exists k :: 0 <= k < |rounds| && (attempt(rounds[k]) || !rounds[k].ready)
    ensures 1 <= attempts <= |rounds|
    ensures forall j :: 0 <= j < attempts - 1 ==> !attempt(rounds[j]) && rounds[j].ready
    ensures ok <==> attempt(rounds[attempts - 1])
    ensures !ok <==> !attempt(rounds[attempts - 1]) && !rounds[attempts - 1].ready
    ensures sleptMs == RetryIntervalMs * (attempts - 1)
  {
    attempts, sleptMs := 0, 0;
    ghost var k :| 0 <= k < |rounds| && (attempt(rounds[k]) || !rounds[k].ready);
    while true
      invariant attempts <= k
      invariant forall j :: 0 <= j < attempts ==> !attempt(rounds[j]) && rounds[j].ready
      invariant sleptMs == RetryIntervalMs * attempts
      decreases k - attempts
    {
      var o := rounds[attempts];
      if attempt(o) {
        attempts := attempts + 1;
        return true, attempts, sleptMs;
      }
      if !o.ready {
        attempts := attempts + 1;
        return false, attempts, sleptMs;
      }
      attempts, sleptMs := attempts + 1, sleptMs + RetryIntervalMs;
    }
  }

  /** The loop of the `_SYNC_SAFE_SEND_MSG` macros: every result other than SUCCESS, TIMEOUT
      and DUPLICATE included, leads to the readiness check and a retry. */
  method RetryUntilSuccess(attempt: Oracle -> SyncCallResult, rounds: seq<Oracle>)
    returns (result: SyncCallResult, attempts: nat, sleptMs: nat)
    requires exists k :: 0 <= k < |rounds| && (attempt(rounds[k]) == Success || !rounds[k].ready)
    ensures 1 <= attempts <= |rounds|
    ensures forall j :: 0 <= j < attempts - 1 ==> attempt(rounds[j]) != Success && rounds[j].ready
    ensures result == Success || result == NotApplicable
    ensures result == Success <==> attempt(rounds[attempts - 1]) == Success
    ensures result == NotApplicable <==>
      attempt(rounds[attempts - 1]) != Success && !rounds[attempts - 1].ready
    ensures sleptMs == RetryIntervalMs * (attempts - 1)
  {
    attempts, sleptMs := 0, 0;
    ghost var k :| 0 <= k < |rounds| && (attempt(rounds[k]) == Success || !rounds[k].ready);
    while true
      invariant attempts <= k
      invariant forall j :: 0 <= j < attempts ==> attempt(rounds[j]) != Success && rounds[j].ready
      invariant sleptMs == RetryIntervalMs * attempts
      decreases k - attempts
    {
      var o := rounds[attempts];
      if attempt(o) == Success {
        attempts := attempts + 1;
        return Success, attempts, sleptMs;
      }
      if !o.ready {
        attempts := attempts + 1;
        return NotApplicable, attempts, sleptMs;
      }
      attempts, sleptMs := attempts + 1, sleptMs + RetryIntervalMs;
    }
  }

  /** `TCP_SAFE_SEND_MSG(FUNNAME, SEND_FUNNAME)`: retries `TcpSend` until it succeeds or the
      endpoint stops being ready. */
  method TcpSafeSend(form: Form, native: bool, canOverflow: bool, rounds: seq<Oracle>) returns (ok: bool, attempts: nat)
    requires exists k :: 0 <= k < |rounds| && (TcpSend(form, native, canOverflow, rounds[k]).result || !rounds[k].ready)
    ensures 1 <= attempts <= |rounds|
    ensures forall j :: 0 <= j < attempts - 1 ==> !TcpSend(form, native, canOverflow, rounds[j]).result && rounds[j].ready
    ensures ok <==> TcpSend(form, native, canOverflow, rounds[attempts - 1]).result
    ensures !ok <==> !rounds[attempts - 1].ready && !TcpSend(form, native, canOverflow, rounds[attempts - 1]).result
  {
    var slept;
    ok, attempts, slept := RetryUntilSent(o => TcpSend(form, native, canOverflow, o).result, rounds);
  }

  /** `TCP_SYNC_SAFE_SEND_MSG(FUNNAME, SEND_FUNNAME)`. */
  method TcpSyncSafeSend(form: Form, native: bool, duration: nat, canOverflow: bool, rounds: seq<Oracle>)
    returns (result: SyncCallResult, attempts: nat)
    requires exists k ::
      0 <= k < |rounds| && (TcpSyncSend(form, native, duration, canOverflow, rounds[k]).result == Success || !rounds[k].ready)
    ensures 1 <= attempts <= |rounds|
    ensures forall j :: 0 <= j < attempts - 1 ==>
      TcpSyncSend(form, native, duration, canOverflow, rounds[j]).result != Success && rounds[j].ready
    ensures result == Success || result == NotApplicable
    ensures result == Success <==> TcpSyncSend(form, native, duration, canOverflow, rounds[attempts - 1]).result == Success
    ensures result == NotApplicable <==>
      !rounds[attempts - 1].ready && TcpSyncSend(form, native, duration, canOverflow, rounds[attempts - 1]).result != Success
  {
    var slept;
    result, attempts, slept := RetryUntilSuccess(o => TcpSyncSend(form, native, duration, canOverflow, o).result, rounds);
  }

  /** `UDP_SAFE_SEND_MSG(FUNNAME, SEND_FUNNAME)`. */
  method UdpSafeSend(native: bool, peer: PeerAddr, canOverflow: bool, rounds: seq<Oracle>) returns (ok: bool, attempts: nat)
    requires exists k :: 0 <= k < |rounds| && (UdpSend(native, peer, canOverflow, rounds[k]).result || !rounds[k].ready)
    ensures 1 <= attempts <= |rounds|
    ensures forall j :: 0 <= j < attempts - 1 ==> !UdpSend(native, peer, canOverflow, rounds[j]).result && rounds[j].ready
    ensures ok <==> UdpSend(native, peer, canOverflow, rounds[attempts - 1]).result
    ensures !ok <==> !rounds[attempts - 1].ready && !UdpSend(native, peer, canOverflow, rounds[attempts - 1]).result
  {
    var slept;
    ok, attempts, slept := RetryUntilSent(o => UdpSend(native, peer, canOverflow, o).result, rounds);
  }

  /** `UDP_SYNC_SAFE_SEND_MSG(FUNNAME, SEND_FUNNAME)`. */
  method UdpSyncSafeSend(native: bool, peer: PeerAddr, duration: nat, canOverflow: bool, rounds: seq<Oracle>)
    returns (result: SyncCallResult, attempts: nat)
    requires exists k ::
      0 <= k < |rounds| && (UdpSyncSend(native, peer, duration, canOverflow, rounds[k]).result == Success || !rounds[k].ready)
    ensures 1 <= attempts <= |rounds|
    ensures forall j :: 0 <= j < attempts - 1 ==>
      UdpSyncSend(native, peer, duration, canOverflow, rounds[j]).result != Success && rounds[j].ready
    ensures result == Success || result == NotApplicable
    ensures result == Success <==> UdpSyncSend(native, peer, duration, canOverflow, rounds[attempts - 1]).result == Success
    ensures result == NotApplicable <==>
      !rounds[attempts - 1].ready && UdpSyncSend(native, peer, duration, canOverflow, rounds[attempts - 1]).result != Success
  {
    var slept;
    result, attempts, slept := RetryUntilSuccess(o => UdpSyncSend(native, peer, duration, canOverflow, o).result, rounds);
  }

  /** `TCP_BROADCAST_MSG(FUNNAME, SEND_FUNNAME)`: the fragment send to every client of the
      pool, whose results are discarded; `clients[i]` answers for client `i`. */
  method TcpBroadcast(native: bool, canOverflow: bool, clients: seq<Oracle>) returns (traces: seq<seq<Call>>)
    ensures |traces| == |clients|
    ensures forall i :: 0 <= i < |clients| ==>
      traces[i] == (if Admitted(canOverflow, clients[i]) then [PackFragments(native), DirectSend] else [])
  {
    traces := [];
    for i := 0 to |clients|
      invariant |traces| == i
      invariant forall j :: 0 <= j < i ==> traces[j] == TcpSend(Fragments, native, canOverflow, clients[j]).calls
    {
      traces := traces + [TcpSend(Fragments, native, canOverflow, clients[i]).calls];
    }
  }
}
