/**
 * Grouping of a decoded payload into packets. The decoder yields a list of
 * objects; their key/value pairs are fed, in order, to the setter of the last
 * packet, and a key that packet refuses (a second status) starts a new packet
 * that takes it instead.
 *
 * A decoded object is a sequence of its key/value pairs in the order the
 * object lists its keys.
 */
module PacketGrouping {
  import opened Packets

  type Pair = (string, real)

  /** All pairs of the decoded objects, in order. */
  function Flatten(results: seq<seq<Pair>>): seq<Pair> {
    if results == [] then [] else Flatten(results[..|results| - 1]) + results[|results| - 1]
  }

  function Last(ps: seq<PacketData>): PacketData
    requires |ps| > 0
  {
    ps[|ps| - 1]
  }

  /** One pair fed to the last packet, or to a new one appended when the last refuses it. */
  function Step(ps: seq<PacketData>, kv: Pair): (ps': seq<PacketData>)
    requires |ps| > 0
    ensures |ps'| == |ps| || |ps'| == |ps| + 1
    ensures ps'[..|ps| - 1] == ps[..|ps| - 1]
  {
    var r := Put(Last(ps), kv.0, kv.1);
    if r.ok then ps[..|ps| - 1] + [r.packet]
    else ps + [Put(NewPacket(), kv.0, kv.1).packet]
  }

  /** The packets after feeding a series of pairs. */
  function Feed(ps: seq<PacketData>, kvs: seq<Pair>): (ps': seq<PacketData>)
    requires |ps| > 0
    ensures |ps'| >= |ps|
    decreases |kvs|
  {
    if kvs == [] then ps else Step(Feed(ps, kvs[..|kvs| - 1]), kvs[|kvs| - 1])
  }

  /** The packets of a decoded payload (create). */
  function Group(results: seq<seq<Pair>>): (ps: seq<PacketData>)
    ensures results == [] ==> ps == []
    ensures results != [] ==> |ps| >= 1
  {
    if results == [] then [] else Feed([NewPacket()], Flatten(results))
  }

  /** Turn the decoded objects into packets. */
  method Create(results: seq<seq<Pair>>) returns (packets: seq<Packet>)
    ensures forall p | p in packets :: fresh(p)
    ensures Contents(packets) == Group(results)
  {
    packets := [];
    if |results| == 0 {
      return;
    }
    var first := new Packet();
    packets := [first];
    var i := 0;
    while i < |results|
      invariant 0 <= i <= |results|
      invariant |packets| > 0 && Distinct(packets) && forall p | p in packets :: fresh(p)
      invariant Contents(packets) == Feed([NewPacket()], Flatten(results[..i]))
    {
      packets := FeedObject(packets, results[i]);
      FeedAppend([NewPacket()], Flatten(results[..i]), results[i]);
      assert results[..i + 1][..i] == results[..i];
      assert Flatten(results[..i + 1]) == Flatten(results[..i]) + results[i];
      i := i + 1;
    }
    assert results[..i] == results;
  }

  /** Feed the pairs of one decoded object, in order. */
  method FeedObject(packets: seq<Packet>, result: seq<Pair>) returns (packets': seq<Packet>)
    requires |packets| > 0 && Distinct(packets)
    modifies set p | p in packets
    ensures |packets'| > 0 && Distinct(packets')
    ensures forall p | p in packets' :: p in packets || fresh(p)
    ensures Contents(packets') == Feed(old(Contents(packets)), result)
  {
    packets' := packets;
    var j := 0;
    while j < |result|
      invariant 0 <= j <= |result|
      invariant |packets'| > 0 && Distinct(packets')
      invariant forall p | p in packets' :: p in packets || fresh(p)
      invariant Contents(packets') == Feed(old(Contents(packets)), result[..j])
    {
      packets' := TryLast(packets', result[j]);
      assert result[..j + 1][..j] == result[..j];
      j := j + 1;
    }
    assert result[..j] == result;
  }

  /** Feed one pair to the last packet, appending a new one when it refuses. */
  method TryLast(packets: seq<Packet>, kv: Pair) returns (packets': seq<Packet>)
    requires |packets| > 0 && Distinct(packets)
    modifies packets[|packets| - 1]
    ensures |packets'| > 0 && Distinct(packets')
    ensures forall p | p in packets' :: p in packets || fresh(p)
    ensures Contents(packets') == Step(old(Contents(packets)), kv)
  {
    var last := packets[|packets| - 1];
    ContentsSplit(packets);
    var ok := last.TrySet(kv.0, kv.1);
    ContentsSplit(packets);
    if ok {
      packets' := packets;
    } else {
      var packet := new Packet();
      var _ := packet.TrySet(kv.0, kv.1);
      packets' := packets + [packet];
      ContentsSplit(packets');
      assert packets'[..|packets'| - 1] == packets;
    }
  }

  predicate Distinct(packets: seq<Packet>) {
    forall i, j | 0 <= i < j < |packets| :: packets[i] != packets[j]
  }

  /** The values of a list of packets. */
  function Contents(packets: seq<Packet>): (ps: seq<PacketData>)
    reads set p | p in packets
    ensures |ps| == |packets|
  {
    if packets == [] then [] else Contents(packets[..|packets| - 1]) + [packets[|packets| - 1].Data()]
  }

  lemma ContentsSplit(packets: seq<Packet>)
    requires |packets| > 0
    ensures Contents(packets) == Contents(packets[..|packets| - 1]) + [packets[|packets| - 1].Data()]
  {
  }

  /** Feeding two series one after the other is feeding their concatenation. */
  lemma {:induction false} FeedAppend(ps: seq<PacketData>, a: seq<Pair>, b: seq<Pair>)
    requires |ps| > 0
    ensures Feed(Feed(ps, a), b) == Feed(ps, a + b)
    decreases |b|
  {
    if b != [] {
      var b' := b[..|b| - 1];
      assert (a + b)[..|a + b| - 1] == a + b';
      FeedAppend(ps, a, b');
    } else {
      assert a + b == a;
    }
  }

  /** The values the status keys of a series carry, in order. */
  function StatusValues(kvs: seq<Pair>): seq<real>
    decreases |kvs|
  {
    if kvs == [] then []
    else StatusValues(kvs[..|kvs| - 1]) + (if IsStatusKey(kvs[|kvs| - 1].0) then [kvs[|kvs| - 1].1] else [])
  }

  /** The statuses of a list of packets, in order. */
  function Statuses(ps: seq<PacketData>): (st: seq<real>)
    ensures |st| == |ps|
  {
    if ps == [] then [] else Statuses(ps[..|ps| - 1]) + [ps[|ps| - 1].status]
  }

  lemma StatusesOfReplaced(ps: seq<PacketData>, p: PacketData)
    requires |ps| > 0
    ensures Statuses(ps[..|ps| - 1] + [p]) == Statuses(ps[..|ps| - 1]) + [p.status]
  {
    assert (ps[..|ps| - 1] + [p])[..|ps| - 1] == ps[..|ps| - 1];
  }

  lemma StatusesOfAppended(ps: seq<PacketData>, p: PacketData)
    ensures Statuses(ps + [p]) == Statuses(ps) + [p.status]
  {
    assert (ps + [p])[..|ps|] == ps;
  }

  /**
   * The shape of the result: without status keys a single packet whose
   * status stays unset; otherwise one packet per status key, holding the
   * status values in input order. A status key carrying -1 is excluded: it
   * is counted among the status values but fills no slot (see
   * `UnsetStatusSharesPacket`).
   */
  lemma {:induction false} FeedShape(kvs: seq<Pair>)
    requires NoUnsetStatus(kvs)
    ensures var ps := Feed([NewPacket()], kvs);
      (StatusValues(kvs) == [] ==> |ps| == 1 && ps[0].status == NotSet)
      && (StatusValues(kvs) != [] ==> Statuses(ps) == StatusValues(kvs) && Last(ps).status != NotSet)
    decreases |kvs|
  {
    if kvs != [] {
      var pre, kv := kvs[..|kvs| - 1], kvs[|kvs| - 1];
      NoUnsetStatusPrefix(kvs);
      FeedShape(pre);
      var ps0 := Feed([NewPacket()], pre);
      assert Feed([NewPacket()], kvs) == Step(ps0, kv);
      if IsStatusKey(kv.0) {
        assert kv.1 != NotSet && StatusValues(kvs) == StatusValues(pre) + [kv.1];
        StatusStep(ps0, StatusValues(pre), kv);
      } else {
        assert StatusValues(kvs) == StatusValues(pre);
        OtherStep(ps0, kv);
      }
    }
  }

  lemma NoUnsetStatusPrefix(kvs: seq<Pair>)
    requires kvs != [] && NoUnsetStatus(kvs)
    ensures NoUnsetStatus(kvs[..|kvs| - 1])
  {
    var pre := kvs[..|kvs| - 1];
    forall i | 0 <= i < |pre| && IsStatusKey(pre[i].0)
      ensures pre[i].1 != NotSet
    {
      assert pre[i] == kvs[i];
    }
  }

  /** A status key on the packets fed so far, given their shape. */
  lemma StatusStep(ps: seq<PacketData>, seen: seq<real>, kv: Pair)
    requires IsStatusKey(kv.0) && kv.1 != NotSet && |ps| > 0
    requires seen == [] ==> |ps| == 1 && ps[0].status == NotSet
    requires seen != [] ==> Statuses(ps) == seen && Last(ps).status != NotSet
    ensures Statuses(Step(ps, kv)) == seen + [kv.1] && Last(Step(ps, kv)).status != NotSet
  {
    if seen == [] {
      StatusStepOnUnset(ps, kv);
    } else {
      StatusStepOnSet(ps, kv);
    }
  }

  lemma StatusStepOnUnset(ps: seq<PacketData>, kv: Pair)
    requires |ps| == 1 && ps[0].status == NotSet && IsStatusKey(kv.0)
    ensures Statuses(Step(ps, kv)) == [kv.1] && Last(Step(ps, kv)).status == kv.1
  {
    StatusKeyEffects(ps[0], kv.0, kv.1);
    assert Step(ps, kv) == [Put(ps[0], kv.0, kv.1).packet];
  }

  lemma StatusStepOnSet(ps: seq<PacketData>, kv: Pair)
    requires |ps| > 0 && Last(ps).status != NotSet && IsStatusKey(kv.0)
    ensures Statuses(Step(ps, kv)) == Statuses(ps) + [kv.1] && Last(Step(ps, kv)).status == kv.1
  {
    var started := Put(NewPacket(), kv.0, kv.1).packet;
    StatusKeyEffects(NewPacket(), kv.0, kv.1);
    assert Step(ps, kv) == ps + [started];
    StatusesOfAppended(ps, started);
  }

  lemma OtherStep(ps: seq<PacketData>, kv: Pair)
    requires |ps| > 0 && !IsStatusKey(kv.0)
    ensures |Step(ps, kv)| == |ps| && Last(Step(ps, kv)).status == Last(ps).status
    ensures Statuses(Step(ps, kv)) == Statuses(ps)
  {
    var q := Put(Last(ps), kv.0, kv.1).packet;
    OtherKeyGoesToLast(ps, kv);
    assert q.status == Last(ps).status;
    assert Step(ps, kv) == ps[..|ps| - 1] + [q];
    StatusesOfReplaced(ps, q);
    assert ps == ps[..|ps| - 1] + [Last(ps)];
    StatusesOfReplaced(ps, Last(ps));
  }

  /** Why the shape needs its requirement: a -1 status and a later status share one packet. */
  lemma UnsetStatusSharesPacket()
    ensures var kvs := [("presence_21", NotSet), ("presence_21", 5.0)];
      |StatusValues(kvs)| == 2 && |Feed([NewPacket()], kvs)| == 1
  {
    var first: Pair, second: Pair := ("presence_21", NotSet), ("presence_21", 5.0);
    var kvs := [first, second];
    var none: seq<Pair> := [];
    assert kvs[..1] == [first] && [first][..0] == none;
    assert StatusValues([first]) == [NotSet];
    assert StatusValues(kvs) == [NotSet, 5.0];
    StatusKeyEffects(NewPacket(), first.0, first.1);
    var p := Put(NewPacket(), first.0, first.1).packet;
    assert Feed([NewPacket()], [first]) == [p];
    assert p.status == NotSet;
    assert Feed([NewPacket()], kvs) == Step([p], second);
  }

  /** For a non-empty payload the number of packets is the number of status keys, but at least one. */
  lemma GroupCount(results: seq<seq<Pair>>)
    requires NoUnsetStatus(Flatten(results))
    ensures results == [] ==> Group(results) == []
    ensures results != [] ==> |Group(results)| == if |StatusValues(Flatten(results))| > 1 then |StatusValues(Flatten(results))| else 1
  {
    if results != [] {
      FeedShape(Flatten(results));
    }
  }

  /** Feeding further pairs never changes a packet before the last one. */
  lemma {:induction false} ClosedPacketsStay(ps: seq<PacketData>, kvs: seq<Pair>)
    requires |ps| > 0
    ensures Feed(ps, kvs)[..|ps| - 1] == ps[..|ps| - 1]
    decreases |kvs|
  {
    if kvs != [] {
      var pre := kvs[..|kvs| - 1];
      ClosedPacketsStay(ps, pre);
      var f := Feed(ps, pre);
      var g := Step(f, kvs[|kvs| - 1]);
      assert g[..|f| - 1] == f[..|f| - 1];
      assert g[..|ps| - 1] == g[..|f| - 1][..|ps| - 1];
      assert f[..|ps| - 1] == f[..|f| - 1][..|ps| - 1];
    }
  }

  /** A key the last packet refuses starts a new packet, which accepts it. */
  lemma RefusedKeyStartsPacket(ps: seq<PacketData>, kv: Pair)
    requires |ps| > 0 && !Put(Last(ps), kv.0, kv.1).ok
    ensures Put(NewPacket(), kv.0, kv.1).ok
    ensures Step(ps, kv) == ps + [Put(NewPacket(), kv.0, kv.1).packet]
    ensures Last(Step(ps, kv)).status == kv.1
  {
    FreshAcceptsEveryKey(kv.0, kv.1);
  }

  /**
   * A non-status key goes to the packet that is last when it is read: it is
   * accepted there, no packet is added and the earlier packets stay.
   */
  lemma OtherKeyGoesToLast(ps: seq<PacketData>, kv: Pair)
    requires |ps| > 0 && !IsStatusKey(kv.0)
    ensures Put(Last(ps), kv.0, kv.1).ok
    ensures |Step(ps, kv)| == |ps|
    ensures Step(ps, kv)[..|ps| - 1] == ps[..|ps| - 1]
    ensures Last(Step(ps, kv)) == Put(Last(ps), kv.0, kv.1).packet
  {
  }

  /** The pairs of two lists of decoded objects are the pairs of the first followed by those of the second. */
  lemma {:induction false} FlattenAppend(a: seq<seq<Pair>>, b: seq<seq<Pair>>)
    ensures Flatten(a + b) == Flatten(a) + Flatten(b)
    decreases |b|
  {
    if b == [] {
      assert a + b == a;
    } else {
      var b' := b[..|b| - 1];
      assert (a + b)[..|a + b| - 1] == a + b';
      FlattenAppend(a, b');
    }
  }
}
