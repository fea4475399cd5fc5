/**
 * The host-side multiplexer of Jupiter operational transformation for one
 * shared document: it keeps one server-side Jupiter proxy per participant,
 * fans every inbound edit out to all other participants and stamps checksums
 * with each recipient's own vector time.
 *
 * The Jupiter proxy itself is not modelled: a proxy is a value holding its
 * vector time and its buffer of unacknowledged operations, and what the proxy
 * does on receive, generate and isCurrent is a fixed but unknown behaviour
 * (ProxyBehaviour) given to the server when it is created.
 */
module Jupiter {

  /** A participant, identified by its XMPP address. */
  type JID = string

  /** The path of the shared document. */
  type Path = string

  /** A Jupiter vector time: (operations generated locally, operations received). */
  datatype VectorTime = VectorTime(local: nat, remote: nat)

  /** The time with its two components exchanged. */
  function Swapped(t: VectorTime): VectorTime
  {
    VectorTime(t.remote, t.local)
  }

  /** A text edit; the transformation rules over it are not part of this model. */
  datatype Operation =
    | Insert(position: nat, text: string)
    | Delete(position: nat, text: string)
    | NoOperation
    | Split(first: Operation, second: Operation)

  /** An edit together with the vector time it was issued at, its sender and its document. */
  datatype JupiterActivity = JupiterActivity(timestamp: VectorTime, operation: Operation, source: JID, editor: Path)

  /** A checksum report on a document, valid for the state at `timestamp`. */
  datatype Checksum = Checksum(source: JID, path: Path, length: int, hash: int, timestamp: VectorTime)

  /** The state of one server-side Jupiter proxy. */
  datatype Proxy = Proxy(time: VectorTime, pending: seq<Operation>)

  /** A newly created proxy: no operation exchanged yet. */
  const FreshProxy: Proxy := Proxy(VectorTime(0, 0), [])

  /** The proxy with its vector time replaced by `t`. */
  function WithTime(p: Proxy, t: VectorTime): Proxy
  {
    p.(time := t)
  }

  /** The result of a proxy operation that may throw a TransformationException. */
  datatype Outcome<T> = Ok(value: T) | TransformationError

  /** What receiving an activity leaves: the advanced proxy and the canonical operation. */
  datatype Received = Received(proxy: Proxy, op: Operation)

  /** What generating an outbound activity leaves: the advanced proxy and the activity to send. */
  datatype Generated = Generated(proxy: Proxy, activity: JupiterActivity)

  /**
   * The behaviour of the Jupiter proxy class, which is not part of this model:
   * receiving an activity from the proxy's participant, generating an
   * outbound activity for it, and testing whether a vector time is current.
   */
  datatype ProxyBehaviour = ProxyBehaviour(
    receive: (Proxy, JupiterActivity) -> Outcome<Received>,
    generate: (Proxy, Operation, JID, Path) -> Generated,
    isCurrent: (Proxy, VectorTime) -> bool)

  // ---------------------------------------------------------------------
  // The proxy table after each operation, as values.
  // ---------------------------------------------------------------------

  /** The table after a join: a fresh proxy for a new participant, nothing for a known one. */
  function AddedProxy(m: map<JID, Proxy>, jid: JID): (r: map<JID, Proxy>)
    ensures r.Keys == m.Keys + {jid}
    ensures forall k :: k in m ==> r[k] == m[k]
    ensures jid !in m ==> r[jid] == FreshProxy
  {
    if jid in m then m else m[jid := FreshProxy]
  }

  /** The table after a leave. */
  function RemovedProxy(m: map<JID, Proxy>, jid: JID): (r: map<JID, Proxy>)
    ensures r.Keys == m.Keys - {jid}
    ensures forall k :: k in r ==> r[k] == m[k]
  {
    m - {jid}
  }

  /** The table after a reset: a known participant starts over with a fresh proxy. */
  function ResetProxy(m: map<JID, Proxy>, jid: JID): (r: map<JID, Proxy>)
    ensures r.Keys == m.Keys
    ensures forall k :: k in m && k != jid ==> r[k] == m[k]
    ensures jid in m ==> r[jid] == FreshProxy
  {
    if jid in m then m[jid := FreshProxy] else m
  }

  /**
   * The table after an edit from `source` was transformed: the source's proxy
   * is the one `receive` left, every other proxy has generated once.
   */
  function AdvancedProxies(b: ProxyBehaviour, m: map<JID, Proxy>, source: JID, received: Received, editor: Path): (r: map<JID, Proxy>)
    requires source in m
    ensures r.Keys == m.Keys
    ensures r[source] == received.proxy
    ensures forall k :: k in m && k != source ==> r[k] == b.generate(m[k], received.op, source, editor).proxy
  {
    map k | k in m :: if k == source then received.proxy else b.generate(m[k], received.op, source, editor).proxy
  }

  /** The outbound activities of an edit from `source`: one per other participant. */
  function Outbound(b: ProxyBehaviour, m: map<JID, Proxy>, source: JID, op: Operation, editor: Path): (r: map<JID, JupiterActivity>)
    ensures r.Keys == m.Keys - {source}
    ensures forall k :: k in r ==> r[k] == b.generate(m[k], op, source, editor).activity
  {
    map k | k in m && k != source :: b.generate(m[k], op, source, editor).activity
  }

  /** The checksums to send on: the report re-stamped with each other participant's time. */
  function Stamped(m: map<JID, Proxy>, c: Checksum): (r: map<JID, Checksum>)
    ensures r.Keys == m.Keys - {c.source}
    ensures forall k :: k in r ==> r[k] == c.(timestamp := m[k].time)
  {
    map k | k in m && k != c.source :: c.(timestamp := m[k].time)
  }

  /** The table after `dest` was seeded with the swapped time of `source`; unchanged without a source. */
  function SeededProxies(m: map<JID, Proxy>, source: JID, dest: JID): (r: map<JID, Proxy>)
    requires source in m ==> dest in m
    ensures r.Keys == m.Keys
    ensures forall k :: k in m && k != dest ==> r[k] == m[k]
    ensures source in m ==> r[dest].time == VectorTime(m[source].time.remote, m[source].time.local)
    ensures source in m ==> r[dest].pending == m[dest].pending
    ensures source !in m ==> r == m
  {
    if source in m then m[dest := WithTime(m[dest], Swapped(m[source].time))] else m
  }

  // ---------------------------------------------------------------------
  // The server.
  // ---------------------------------------------------------------------

  class JupiterDocumentServer {

    /** The proxy of every participant of the document. */
    var proxies: map<JID, Proxy>

    /** The shared document. */
    const editor: Path

    /** What the proxies do; fixed for the lifetime of the server. */
    const jupiter: ProxyBehaviour

    constructor (path: Path, jupiter: ProxyBehaviour)
      ensures proxies == map[] && editor == path && this.jupiter == jupiter
    {
      proxies := map[];
      editor := path;
      this.jupiter := jupiter;
    }

    /** A participant joins; joining twice changes nothing. */
    method AddProxyClient(jid: JID)
      modifies this
      ensures proxies == AddedProxy(old(proxies), jid)
    {
      if jid !in proxies {
        proxies := proxies[jid := FreshProxy];
      }
    }

    /** A participant leaves; the answer says whether it had a proxy. */
    method RemoveProxyClient(jid: JID) returns (removed: bool)
      modifies this
      ensures removed <==> jid in old(proxies)
      ensures proxies == RemovedProxy(old(proxies), jid)
    {
      removed := jid in proxies;
      proxies := proxies - {jid};
    }

    /**
     * Transforms an edit through its sender's proxy and generates an outbound
     * edit for every other participant. The sender must have a proxy. If the
     * sender's proxy rejects the edit nothing is generated and no proxy changes.
     */
    method TransformJupiterActivity(activity: JupiterActivity) returns (result: Outcome<map<JID, JupiterActivity>>)
      requires activity.source in proxies
      modifies this
      ensures jupiter.receive(old(proxies)[activity.source], activity).TransformationError? ==>
                result.TransformationError? && proxies == old(proxies)
      ensures jupiter.receive(old(proxies)[activity.source], activity).Ok? ==>
                var received := jupiter.receive(old(proxies)[activity.source], activity).value;
                && result == Ok(Outbound(jupiter, old(proxies), activity.source, received.op, editor))
                && proxies == AdvancedProxies(jupiter, old(proxies), activity.source, received, editor)
    {
      var source := activity.source;
      var outcome := jupiter.receive(proxies[source], activity);
      if outcome.TransformationError? {
        return TransformationError;
      }
      var received := outcome.value;
      proxies := proxies[source := received.proxy];
      var out := GenerateOutbound(source, received.op);
      SenderProxyNotUsed(jupiter, old(proxies), source, received, editor);
      result := Ok(out);
    }

    /**
     * The loop over all proxies: each one except the sender's generates the
     * outbound activity for the canonical operation `op`.
     */
    method GenerateOutbound(source: JID, op: Operation) returns (out: map<JID, JupiterActivity>)
      requires source in proxies
      modifies this
      ensures out == Outbound(jupiter, old(proxies), source, op, editor)
      ensures proxies == AdvancedProxies(jupiter, old(proxies), source, Received(old(proxies)[source], op), editor)
    {
      out := map[];
      var todo := proxies.Keys;
      while todo != {}
        invariant todo <= proxies.Keys && proxies.Keys == old(proxies).Keys
        invariant proxies[source] == old(proxies)[source]
        invariant forall k :: k in todo ==> proxies[k] == old(proxies)[k]
        invariant forall k :: k in proxies && k !in todo && k != source ==>
                    proxies[k] == jupiter.generate(old(proxies)[k], op, source, editor).proxy
        invariant out.Keys == old(proxies).Keys - todo - {source}
        invariant forall k :: k in out ==> out[k] == jupiter.generate(old(proxies)[k], op, source, editor).activity
        decreases todo
      {
        var jid :| jid in todo;
        todo := todo - {jid};
        if jid != source {
          var generated := jupiter.generate(proxies[jid], op, source, editor);
          proxies := proxies[jid := generated.proxy];
          out := out[jid := generated.activity];
        }
      }
      assert out.Keys == Outbound(jupiter, old(proxies), source, op, editor).Keys;
      assert proxies.Keys == AdvancedProxies(jupiter, old(proxies), source, Received(old(proxies)[source], op), editor).Keys;
    }

    /** Whether the participant has a proxy. */
    method IsExist(jid: JID) returns (exists_: bool)
      ensures exists_ <==> jid in proxies
    {
      exists_ := jid in proxies;
    }

    /**
     * Seeds the proxy of `dest` with the vector time of `source`, components
     * swapped. Without a proxy for `source` nothing happens; a proxy for
     * `dest` must then exist.
     */
    method UpdateVectorTime(source: JID, dest: JID)
      requires source in proxies ==> dest in proxies
      modifies this
      ensures proxies == SeededProxies(old(proxies), source, dest)
    {
      if source in proxies {
        var ts := proxies[source].time;
        proxies := proxies[dest := WithTime(proxies[dest], VectorTime(ts.remote, ts.local))];
      }
    }

    /** Replaces the proxy of a known participant by a fresh one. */
    method Reset(jid: JID)
      modifies this
      ensures proxies == ResetProxy(old(proxies), jid)
    {
      var removed := RemoveProxyClient(jid);
      if removed {
        AddProxyClient(jid);
      }
      ResetIsRemoveThenAdd(old(proxies), jid);
    }

    /**
     * Re-stamps a checksum report for every other participant, or discards
     * it when the sender's proxy says its time is no longer current. The
     * sender must have a proxy. No proxy changes.
     */
    method WithTimestamp(c: Checksum) returns (result: map<JID, Checksum>)
      requires c.source in proxies
      ensures !jupiter.isCurrent(proxies[c.source], c.timestamp) ==> result == map[]
      ensures jupiter.isCurrent(proxies[c.source], c.timestamp) ==> result == Stamped(proxies, c)
    {
      result := map[];
      if !jupiter.isCurrent(proxies[c.source], c.timestamp) {
        return;
      }
      var todo := proxies.Keys;
      while todo != {}
        invariant todo <= proxies.Keys
        invariant result.Keys == proxies.Keys - todo - {c.source}
        invariant forall k :: k in result ==> result[k] == c.(timestamp := proxies[k].time)
        decreases todo
      {
        var jid :| jid in todo;
        todo := todo - {jid};
        if jid != c.source {
          result := result[jid := c.(timestamp := proxies[jid].time)];
        }
      }
      assert result.Keys == Stamped(proxies, c).Keys;
    }
  }

  // ---------------------------------------------------------------------
  // Properties of the proxy table.
  // ---------------------------------------------------------------------

  /**
   * Generating for the other participants does not look at the sender's
   * proxy, so it makes no difference whether the sender has already received.
   */
  lemma SenderProxyNotUsed(b: ProxyBehaviour, m: map<JID, Proxy>, source: JID, received: Received, editor: Path)
    requires source in m
    ensures Outbound(b, m[source := received.proxy], source, received.op, editor) == Outbound(b, m, source, received.op, editor)
    ensures AdvancedProxies(b, m[source := received.proxy], source, Received(received.proxy, received.op), editor)
         == AdvancedProxies(b, m, source, received, editor)
  {
  }

  /** Joining is idempotent. */
  lemma AddIdempotent(m: map<JID, Proxy>, jid: JID)
    ensures AddedProxy(AddedProxy(m, jid), jid) == AddedProxy(m, jid)
  {
  }

  /** A join followed by a leave of a new participant restores the table. */
  lemma LeaveUndoesJoin(m: map<JID, Proxy>, jid: JID)
    requires jid !in m
    ensures RemovedProxy(AddedProxy(m, jid), jid) == m
  {
  }

  /** A reset is a leave followed by a join, done only when the leave removed a proxy. */
  lemma ResetIsRemoveThenAdd(m: map<JID, Proxy>, jid: JID)
    ensures ResetProxy(m, jid) == if jid in m then AddedProxy(RemovedProxy(m, jid), jid) else RemovedProxy(m, jid)
  {
  }

  /** Resetting twice is resetting once. */
  lemma ResetIdempotent(m: map<JID, Proxy>, jid: JID)
    ensures ResetProxy(ResetProxy(m, jid), jid) == ResetProxy(m, jid)
  {
  }

  /** Every participant except the sender receives exactly one outbound activity. */
  lemma OutboundCount(b: ProxyBehaviour, m: map<JID, Proxy>, source: JID, op: Operation, editor: Path)
    requires source in m
    ensures |Outbound(b, m, source, op, editor)| == |m| - 1
  {
  }

  /** The same count for the re-stamped checksums of a current report. */
  lemma StampedCount(m: map<JID, Proxy>, c: Checksum)
    requires c.source in m
    ensures |Stamped(m, c)| == |m| - 1
  {
  }

  /** Seeding with a swapped time and seeding back restores the source's time. */
  lemma SeedBackRestores(m: map<JID, Proxy>, a: JID, d: JID)
    requires a in m && d in m && a != d
    ensures SeededProxies(SeededProxies(m, a, d), d, a)[a].time == m[a].time
  {
  }

  /** A three-participant session: an edit from one yields two outbound activities, none for the sender. */
  lemma FanOutThree(b: ProxyBehaviour, m: map<JID, Proxy>, x: JID, y: JID, z: JID, op: Operation, editor: Path)
    requires m.Keys == {x, y, z} && x != y && y != z && x != z
    ensures Outbound(b, m, x, op, editor).Keys == {y, z}
    ensures |Outbound(b, m, x, op, editor)| == 2
  {
  }
}
