/** The quiet watchdog of one generation: when a silence is noticed, under which identity, and how often. */
module QuietCadence {
  import opened Types

  const WINDOW: nat := 600

  /** What a notice says: how long the silence had lasted when it fell due, and since when. */
  datatype Content = Content(quietFor: int, since: nat)

  datatype Claim = Claim(sequence: nat, activityAt: nat, notifiedAt: nat, content: Content)

  class Cadence {
    /** The generation's durable phase is Running; once left, it never comes back. */
    var running: bool
    var activityAt: nat
    var sequence: nat
    var notified: bool
    var notifiedAt: nat
    var claim: Option<Claim>
    /** What reached the owner's transcript, by notice identity. */
    ghost var transcript: map<nat, Content>
    ghost var appended: bool
    /** Wakes committed since the last activity. */
    ghost var wakes: nat

    function QuietSince(): nat
      reads this
    {
      if notified then notifiedAt else activityAt
    }

    /** The notice the present state would give. */
    function Due(): Content
      reads this
    {
      Content(QuietSince() + WINDOW - activityAt, activityAt)
    }

    /** Identities at or past the current one are unused, but for the claim in flight;
        and the k-th wake of a silence came at least k windows after its last activity. */
    ghost predicate Valid()
      reads this
    {
      && sequence >= 1
      && (running ==> forall q | q in transcript :: q < sequence || (claim.Some? && appended && q == claim.value.sequence))
      && (claim.Some? ==>
            && 1 <= claim.value.sequence <= sequence
            && (appended ==> claim.value.sequence in transcript && transcript[claim.value.sequence] == claim.value.content)
            && (!appended ==> claim.value.sequence !in transcript)
            && (claim.value.sequence == sequence && running ==>
                  claim.value.activityAt == activityAt && claim.value.content == Due() && claim.value.notifiedAt >= QuietSince() + WINDOW))
      && (claim.None? ==> !appended)
      && (if notified then wakes >= 1 && notifiedAt >= activityAt + wakes * WINDOW else wakes == 0)
    }

    constructor (startedAt: nat)
      ensures Valid() && running && activityAt == startedAt && transcript == map[] && wakes == 0
    {
      running, activityAt, sequence, notified, notifiedAt, claim := true, startedAt, 1, false, 0, None;
      transcript, appended, wakes := map[], false, 0;
    }

    /** A further full window of silence admits one claim, never a second while one is in flight. `admissible` says that the
        lease is admitted, no settlement holds it and the receiver is its parent's runtime, as `Claims.BeginQuiet` decides over the tables. */
    method Begin(now: nat, admissible: bool) returns (admitted: bool)
      requires Valid()
      modifies this
      ensures Valid() && transcript == old(transcript) && wakes == old(wakes) && activityAt == old(activityAt) && sequence == old(sequence)
      ensures admitted <==> admissible && old(running && claim.None?) && now >= old(QuietSince()) + WINDOW
      ensures admitted ==> claim == Some(Claim(sequence, activityAt, now, old(Due())))
      ensures !admitted ==> claim == old(claim)
    {
      if !admissible || !running || claim.Some? || now < QuietSince() + WINDOW { return false; }
      claim := Some(Claim(sequence, activityAt, now, Due()));
      return true;
    }

    /** The notice is written outside the lock, while its claim is in flight; an identity never gets two contents. */
    method Append()
      requires Valid() && claim.Some? && !appended
      modifies this
      ensures Valid() && claim == old(claim) && appended
      ensures old(claim.value.sequence !in transcript)
      ensures transcript == old(transcript)[old(claim).value.sequence := old(claim).value.content]
    {
      ghost var c := claim.value;
      transcript, appended := transcript[c.sequence := c.content], true;
    }

    /** A written notice commits unless the run moved on; one not written gives its identity back unused. */
    method Complete(written: bool) returns (committed: bool)
      requires Valid() && claim.Some? && written == appended
      modifies this
      ensures Valid() && claim.None? && transcript == old(transcript) && activityAt == old(activityAt) && running == old(running)
      ensures committed <==> written && running && old(claim.value.sequence) == old(sequence) && old(claim.value.activityAt) == activityAt
      ensures committed ==> notified && wakes == old(wakes) + 1 && notifiedAt == old(claim.value.notifiedAt) && sequence == old(sequence) + 1
      ensures !committed ==> notified == old(notified) && notifiedAt == old(notifiedAt) && wakes == old(wakes) && sequence == old(sequence)
    {
      var c := claim.value;
      claim, appended := None, false;
      committed := written && running && sequence == c.sequence && activityAt == c.activityAt;
      if committed {
        notified, notifiedAt, sequence := true, c.notifiedAt, sequence + 1;
        wakes := wakes + 1;
      }
    }

    predicate RearmPending()
      reads this
    {
      notified || (claim.Some? && claim.value.sequence == sequence)
    }

    /** New activity starts the silence over; a pending or committed wake retires its identity. */
    method ReportActivity(at: nat)
      requires Valid()
      modifies this
      ensures Valid() && claim == old(claim) && transcript == old(transcript) && running == old(running)
      ensures var moved := at > old(activityAt) || (at == old(activityAt) && old(RearmPending()));
              && activityAt == (if moved then at else old(activityAt))
              && sequence == (if moved && old(RearmPending()) then old(sequence) + 1 else old(sequence))
              && (moved ==> !notified && wakes == 0)
              && (!moved ==> notified == old(notified) && notifiedAt == old(notifiedAt) && wakes == old(wakes))
    {
      var rearm := RearmPending();
      if at > activityAt || (at == activityAt && rearm) {
        if rearm {
          notified, notifiedAt, sequence := false, 0, sequence + 1;
          wakes := 0;
        }
        activityAt := at;
      }
    }

    /** A steer at or after the last activity is activity. */
    method Steer(at: nat)
      requires Valid()
      modifies this
      ensures Valid() && claim == old(claim) && transcript == old(transcript) && running == old(running)
      ensures activityAt == (if at > old(activityAt) then at else old(activityAt))
      ensures at >= old(activityAt) ==> !notified && wakes == 0
      ensures at < old(activityAt) ==> notified == old(notified) && notifiedAt == old(notifiedAt) && wakes == old(wakes) && sequence == old(sequence)
    {
      var rearm := RearmPending();
      if at > activityAt { activityAt := at; }
      if at >= activityAt && rearm {
        notified, notifiedAt, sequence := false, 0, sequence + 1;
        wakes := 0;
      }
    }

    /** The run settles or is stopped: from here on no notice begins and none commits. */
    method End()
      requires Valid()
      modifies this`running
      ensures Valid() && !running
    {
      running := false;
    }
  }
}
