/**
  The pure parts of the sign engine: when a stored pairing or session is
  valid, the settled lists it hands to the application, the choice of ping,
  the partition the reconnect sweep works from, and the freshness rule for
  namespace updates.
 */
module EngineSpec {
  import opened Wrappers
  import opened Protocol
  import opened PairingVO
  import opened SessionVO

  /** `isSequenceValid`: a sequence is valid while its expiry lies strictly after `now`. */
  predicate IsSequenceValid(expiry: int, now: int) {
    expiry > now
  }

  /** `isPairingValid`: a pairing is stored under the topic and has not expired. */
  predicate IsPairingValid(pairings: map<Topic, Pairing>, topic: Topic, now: int) {
    topic in pairings && IsSequenceValid(pairings[topic].expiry, now)
  }

  /** `isSessionValid`: a session is stored under the topic and has not expired. */
  predicate IsSessionValid(sessions: map<Topic, Session>, topic: Topic, now: int) {
    topic in sessions && IsSequenceValid(sessions[topic].expiry, now)
  }

  /** `getListOfSettledSessions`: exactly the acknowledged sessions that are still valid. */
  function SettledSessions(sessions: map<Topic, Session>, now: int): (r: map<Topic, Session>)
    ensures forall t :: t in r <==> t in sessions && sessions[t].isAcknowledged && IsSequenceValid(sessions[t].expiry, now)
    ensures forall t :: t in r ==> r[t] == sessions[t]
  {
    map t | t in sessions && sessions[t].isAcknowledged && IsSequenceValid(sessions[t].expiry, now) :: sessions[t]
  }

  /** `getListOfSettledPairings`: exactly the pairings that are still valid, active or not. */
  function SettledPairings(pairings: map<Topic, Pairing>, now: int): (r: map<Topic, Pairing>)
    ensures forall t :: t in r <==> IsPairingValid(pairings, t, now)
    ensures forall t :: t in r ==> t in pairings && r[t] == pairings[t]
  {
    map t | t in pairings && IsSequenceValid(pairings[t].expiry, now) :: pairings[t]
  }

  /**
    Validity only lapses: with the stores unchanged, whatever is valid at a
    later time was valid before, so the settled lists only shrink as time passes.
   */
  lemma ValidityOnlyLapses(pairings: map<Topic, Pairing>, sessions: map<Topic, Session>, topic: Topic, now: int, later: int)
    requires now <= later
    ensures IsPairingValid(pairings, topic, later) ==> IsPairingValid(pairings, topic, now)
    ensures IsSessionValid(sessions, topic, later) ==> IsSessionValid(sessions, topic, now)
    ensures SettledPairings(pairings, later).Keys <= SettledPairings(pairings, now).Keys
    ensures SettledSessions(sessions, later).Keys <= SettledSessions(sessions, now).Keys
  {
  }

  /** What `ping` sends on a topic. */
  datatype PingTarget = SessionPing | PairingPing | NoSequence

  /**
    The choice in `ping`: a valid session takes precedence over a valid
    pairing on the same topic; with neither, there is nothing to ping.
   */
  function PingTargetOf(sessions: map<Topic, Session>, pairings: map<Topic, Pairing>, topic: Topic, now: int)
    : (k: PingTarget)
    ensures k.SessionPing? <==> IsSessionValid(sessions, topic, now)
    ensures k.PairingPing? <==> !IsSessionValid(sessions, topic, now) && IsPairingValid(pairings, topic, now)
    ensures k.NoSequence? <==> !IsSessionValid(sessions, topic, now) && !IsPairingValid(pairings, topic, now)
  {
    if IsSessionValid(sessions, topic, now) then SessionPing
    else if IsPairingValid(pairings, topic, now) then PairingPing
    else NoSequence
  }

  /**
    The topics the reconnect sweep deletes from a table of stored sequences:
    exactly those whose record, by its expiry, is no longer valid.
   */
  function Expired<V>(records: map<Topic, V>, expiry: V -> int, now: int): (r: set<Topic>)
    ensures forall t :: t in r <==> t in records && !IsSequenceValid(expiry(records[t]), now)
  {
    set t | t in records && !IsSequenceValid(expiry(records[t]), now)
  }

  function PairingExpiry(p: Pairing): int { p.expiry }

  function SessionExpiry(s: Session): int { s.expiry }

  /**
    The sweep's partition: every stored pairing is either expired or settled
    (valid), never both, and what remains after removing the expired ones is
    exactly the settled list.
   */
  lemma PairingPartition(pairings: map<Topic, Pairing>, now: int)
    ensures Expired(pairings, PairingExpiry, now) * SettledPairings(pairings, now).Keys == {}
    ensures Expired(pairings, PairingExpiry, now) + SettledPairings(pairings, now).Keys == pairings.Keys
    ensures pairings - Expired(pairings, PairingExpiry, now) == SettledPairings(pairings, now)
  {
  }

  /** The same partition for sessions, where what remains is every valid session, settled or not. */
  lemma SessionPartition(sessions: map<Topic, Session>, now: int)
    ensures forall t :: t in sessions - Expired(sessions, SessionExpiry, now) <==> IsSessionValid(sessions, t, now)
    ensures Expired(sessions, SessionExpiry, now) <= sessions.Keys
    ensures SettledSessions(sessions, now).Keys !! Expired(sessions, SessionExpiry, now)
  {
  }

  /**
    `extractTimestamp`: a request id is a millisecond clock reading with
    three more digits appended, so its timestamp is the id divided by 1000,
    truncated toward zero as Kotlin's `Long` division does.
   */
  function ExtractTimestamp(id: int): (ts: int)
    ensures id >= 0 ==> 0 <= ts && ts * 1000 <= id < ts * 1000 + 1000
    ensures id < 0 ==> ts <= 0 && ts * 1000 - 1000 < id <= ts * 1000
  {
    if id >= 0 then id / 1000 else -((-id) / 1000)
  }

  /**
    The freshness rule of `isUpdatedNamespaceValid` and
    `isUpdatedNamespaceResponseValid`: an update is applied only if its
    timestamp is strictly newer than the last one applied to the topic.
   */
  predicate IsNamespaceUpdateFresh(stamps: map<Topic, int>, topic: Topic, timestamp: int) {
    topic !in stamps || timestamp > stamps[topic]
  }

  /**
    Once an update has been applied, the same update replayed, and any
    update at least as old, is refused; a strictly newer one is still taken.
   */
  lemma AppliedUpdateCannotBeReplayed(stamps: map<Topic, int>, topic: Topic, applied: int, later: int)
    ensures !IsNamespaceUpdateFresh(stamps[topic := applied], topic, applied)
    ensures later <= applied ==> !IsNamespaceUpdateFresh(stamps[topic := applied], topic, later)
    ensures later > applied ==> IsNamespaceUpdateFresh(stamps[topic := applied], topic, later)
  {
  }
}
