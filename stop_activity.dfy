/**
 * A request to lock or unlock a participant (stop it from generating edits,
 * or let it start again), with its two-step handshake: the initiator sends the
 * request to the affected user, and the user acknowledges it to the initiator.
 *
 * Every field is a Java reference that may be null, modelled as an Option.
 */
module StopActivity {

  import opened Optional

  /** A participant, identified by its XMPP address. */
  type JID = string

  /** What is requested. */
  datatype StopType = LockRequest | UnlockRequest

  /** How far the handshake is. */
  datatype StopState = Initiated | Acknowledged

  /**
   * The fields of a stop activity; `source` is the one inherited from the
   * activity base class, the sender of this very object.
   */
  datatype StopActivityDataObject = StopActivityDataObject(
    source: Option<JID>,
    initiator: Option<JID>,
    user: Option<JID>,
    stopType: Option<StopType>,
    state: Option<StopState>,
    stopActivityID: Option<string>)

  /**
   * The five-argument constructor. The id it makes up from the clock and a
   * random number is given here as `generatedID`; it is never null.
   */
  function Create(source: Option<JID>, initiator: Option<JID>, user: Option<JID>,
                  stopType: Option<StopType>, state: Option<StopState>, generatedID: string): (r: StopActivityDataObject)
    ensures r.stopActivityID.Some?
    ensures r.source == source && r.initiator == initiator && r.user == user
    ensures r.stopType == stopType && r.state == state
  {
    StopActivityDataObject(source, initiator, user, stopType, state, Some(generatedID))
  }

  /**
   * The six-argument constructor: it runs the five-argument one and then
   * overwrites the generated id with the given one.
   */
  function CreateWithID(source: Option<JID>, initiator: Option<JID>, user: Option<JID>,
                        stopType: Option<StopType>, state: Option<StopState>,
                        generatedID: string, stopActivityID: Option<string>): (r: StopActivityDataObject)
    ensures r.stopActivityID == stopActivityID
    ensures r.source == source && r.initiator == initiator && r.user == user
    ensures r.stopType == stopType && r.state == state
  {
    Create(source, initiator, user, stopType, state, generatedID).(stopActivityID := stopActivityID)
  }

  /** The id made up by the delegated constructor leaves no trace in the six-argument one. */
  lemma GeneratedIDIsOverwritten(source: Option<JID>, initiator: Option<JID>, user: Option<JID>,
                                 stopType: Option<StopType>, state: Option<StopState>,
                                 g1: string, g2: string, stopActivityID: Option<string>)
    ensures CreateWithID(source, initiator, user, stopType, state, g1, stopActivityID)
         == CreateWithID(source, initiator, user, stopType, state, g2, stopActivityID)
  {
  }

  /** Java's null-safe field comparison: null equals only null. */
  function NullSafeEquals<T(==)>(x: Option<T>, y: Option<T>): (r: bool)
    ensures r <==> x == y
  {
    if x.None? then y.None? else y.Some? && x.value == y.value
  }

  /**
   * Equality as `equals` computes it: the inherited fields and then initiator,
   * state, id, type and user, field by field. It is exactly structural
   * equality.
   */
  function Equals(a: StopActivityDataObject, b: StopActivityDataObject): (r: bool)
    ensures r <==> a == b
  {
    && NullSafeEquals(a.source, b.source)
    && NullSafeEquals(a.initiator, b.initiator)
    && NullSafeEquals(a.state, b.state)
    && NullSafeEquals(a.stopActivityID, b.stopActivityID)
    && NullSafeEquals(a.stopType, b.stopType)
    && NullSafeEquals(a.user, b.user)
  }

  lemma EqualsIsEquivalence(a: StopActivityDataObject, b: StopActivityDataObject, c: StopActivityDataObject)
    ensures Equals(a, a)
    ensures Equals(a, b) <==> Equals(b, a)
    ensures Equals(a, b) && Equals(b, c) ==> Equals(a, c)
  {
  }

  /**
   * The participant this object is to be sent to: the affected user while
   * the request is initiated, the initiator once it is acknowledged. A null
   * state makes the switch throw, so the state must be set.
   */
  function GetRecipient(a: StopActivityDataObject): (r: Option<JID>)
    requires a.state.Some?
    ensures a.state == Some(Initiated) ==> r == a.user
    ensures a.state == Some(Acknowledged) ==> r == a.initiator
  {
    match a.state.value
    case Initiated => a.user
    case Acknowledged => a.initiator
  }

  /**
   * The reply to a request, sent by `source`: the same request (initiator,
   * user, type and id), now acknowledged, and addressed to the initiator.
   */
  function GenerateAcknowledgment(a: StopActivityDataObject, source: Option<JID>): (r: StopActivityDataObject)
    ensures r.initiator == a.initiator && r.user == a.user
    ensures r.stopType == a.stopType && r.stopActivityID == a.stopActivityID
    ensures r.state == Some(Acknowledged) && r.source == source
    ensures GetRecipient(r) == a.initiator
  {
    // The id the delegated constructor makes up is overwritten at once
    // (GeneratedIDIsOverwritten), so any value stands for it.
    CreateWithID(source, a.initiator, a.user, a.stopType, Some(Acknowledged), "", a.stopActivityID)
  }

  /** Acknowledging an acknowledgment again from the same sender gives an equal object. */
  lemma AcknowledgmentIdempotent(a: StopActivityDataObject, source: Option<JID>)
    ensures Equals(GenerateAcknowledgment(GenerateAcknowledgment(a, source), source), GenerateAcknowledgment(a, source))
  {
  }

  /** A handshake from start to end: the request goes to the user, the reply back to the initiator, about the same request. */
  lemma HandshakeRoundTrip(source: Option<JID>, initiator: Option<JID>, user: Option<JID>,
                           stopType: Option<StopType>, generatedID: string, replier: Option<JID>)
    ensures var request := Create(source, initiator, user, stopType, Some(Initiated), generatedID);
            var reply := GenerateAcknowledgment(request, replier);
            && GetRecipient(request) == user
            && GetRecipient(reply) == initiator
            && reply.stopActivityID == request.stopActivityID
            && !Equals(request, reply)
  {
  }
}
