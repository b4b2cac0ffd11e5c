/**
  The retrying transport: a counted loop with cancellation, growing back-off and
  ownership of response bodies.  Attempt i is what the base transport would answer at
  its i-th call; the request context is cancelled at one instant, or never.
 */
module Retry {
  import opened Prelude

  /** A response body: how often it was drained and closed. */
  class Body {
    var drained: nat
    var closed: nat

    constructor ()
      ensures drained == 0 && closed == 0
    {
      drained, closed := 0, 0;
    }
  }

  /** The base transport yields a response, an error, or an error together with a response. */
  datatype Attempt =
    | Answer(status: int)
    | Error(cause: string)
    | ErrorWithResponse(cause: string)

  datatype Failure =
    | Cancelled
    | CancelledDuringBackoff
    | TransportError(cause: string)
    | ServerError(status: int)

  /**
    The surroundings: attempt i takes times[i] milliseconds, its response, if it has one,
    carries bodies[i], and ties[i] says whether the timer wins a tie with the cancellation.
   */
  datatype World = World(attempts: seq<Attempt>, bodies: seq<Body>, times: seq<nat>, ties: seq<bool>, cancelledAt: Option<nat>)

  const STEP: nat := 500

  ghost predicate WorldFor(w: World, maxRetries: int) {
    && |w.attempts| == |w.bodies| == |w.times| == |w.ties| > maxRetries
    && (forall i, j :: 0 <= i < j < |w.bodies| ==> w.bodies[i] != w.bodies[j])
  }

  // ---- The time line, in milliseconds from the start ----

  ghost function Sum(times: seq<nat>): nat {
    if times == [] then 0 else Sum(times[..|times| - 1]) + times[|times| - 1]
  }

  /** All back-off slept before attempt i. */
  ghost function Slept(i: nat): nat { if i == 0 then 0 else Slept(i - 1) + i * STEP }

  lemma {:induction false} SleptClosedForm(i: nat)
    ensures Slept(i) == 250 * i * (i + 1)
  {
    if i > 0 {
      SleptClosedForm(i - 1);
      assert 250 * (i - 1) * i + i * 500 == 250 * i * (i + 1);
    }
  }

  /** When the loop checks the context for the i-th time, and when attempt i starts. */
  ghost function CheckAt(w: World, i: nat): nat
    requires i <= |w.times|
  {
    Sum(w.times[..i]) + if i == 0 then 0 else Slept(i - 1)
  }

  ghost function StartAt(w: World, i: nat): nat
    requires i <= |w.times|
  {
    Sum(w.times[..i]) + Slept(i)
  }

  /** From check to start passes the back-off, 500 milliseconds more each time; from start to the next check the attempt. */
  lemma TimeLine(w: World, i: nat)
    requires i < |w.times|
    ensures CheckAt(w, 0) == 0
    ensures StartAt(w, i) == CheckAt(w, i) + 500 * i
    ensures CheckAt(w, i + 1) == StartAt(w, i) + w.times[i]
  {
    assert w.times[..i + 1][..i] == w.times[..i];
  }

  predicate CancelledBy(w: World, now: nat) { w.cancelledAt.Some? && w.cancelledAt.value <= now }

  /** Attempt i is made unless the context is cancelled at its check or before its back-off ends. */
  ghost predicate Allowed(w: World, i: nat)
    requires i < |w.times| && |w.ties| == |w.times|
  {
    && !CancelledBy(w, CheckAt(w, i))
    && (i > 0 ==> w.cancelledAt.None? || StartAt(w, i) < w.cancelledAt.value
                  || (StartAt(w, i) == w.cancelledAt.value && w.ties[i]))
  }

  /** Attempt i is reached: every earlier one was made and was not accepted. */
  ghost predicate Reached(w: World, i: nat)
    requires i <= |w.attempts| == |w.times| == |w.ties|
  {
    forall j :: 0 <= j < i ==> Passed(w, j)
  }

  ghost predicate Passed(w: World, i: nat)
    requires i < |w.attempts| == |w.times| == |w.ties|
  {
    Allowed(w, i) && !(w.attempts[i].Answer? && w.attempts[i].status < 500)
  }

  // ---- The loop ----

  /** The error for an attempt that is not accepted: its cause, or the status if it came without one. */
  ghost predicate IsFailure(a: Attempt, e: Failure) {
    match a
    case Answer(status) => e == ServerError(status) && status >= 500
    case Error(cause) => e == TransportError(cause)
    case ErrorWithResponse(cause) => e == TransportError(cause)
  }

  /** The pair the caller gets: Go's (response, error), each possibly nil. */
  datatype Returned = Returned(response: Option<nat>, error: Option<Failure>)

  /** made attempts were made; the returned response is still the caller's to close. */
  ghost predicate Outcome(w: World, maxRetries: int, r: Returned, made: nat)
    requires WorldFor(w, maxRetries)
  {
    && made <= |w.attempts|
    && if r.response.Some? then
         var i := r.response.value;
         && r.error.None? && made == i + 1 && i <= maxRetries && Reached(w, i) && Allowed(w, i)
         && w.attempts[i].Answer? && w.attempts[i].status < 500
       else
         && Reached(w, made)
         && match r.error
            case None => maxRetries < 0 && made == 0
            case Some(Cancelled) => made <= maxRetries && CancelledBy(w, CheckAt(w, made))
            case Some(CancelledDuringBackoff) =>
              made <= maxRetries && !CancelledBy(w, CheckAt(w, made)) && !Allowed(w, made)
            case Some(e) => made == maxRetries + 1 > 0 && IsFailure(w.attempts[made - 1], e)
  }

  /** How often body i has been drained and closed: once if its attempt was made and the caller has not got it. */
  ghost function Uses(w: World, made: nat, kept: Option<nat>, i: nat): nat
    requires i < |w.attempts|
  {
    if i < made && (w.attempts[i].Answer? || w.attempts[i].ErrorWithResponse?) && kept != Some(i) then 1 else 0
  }

  ghost predicate BodiesSettled(w: World, made: nat, kept: Option<nat>)
    requires |w.bodies| == |w.attempts|
    reads w.bodies
  {
    forall i :: 0 <= i < |w.bodies| ==> w.bodies[i].drained == w.bodies[i].closed == Uses(w, made, kept, i)
  }

  /** Wait before attempt i, until the timer fires or the context is cancelled. */
  method Backoff(w: World, now: nat, i: nat) returns (fired: bool)
    requires 0 < i < |w.times| && |w.ties| == |w.times| && now == CheckAt(w, i) && !CancelledBy(w, now)
    ensures fired <==> Allowed(w, i)
    ensures fired <==> w.cancelledAt.None? || now + 500 * i < w.cancelledAt.value
                       || (now + 500 * i == w.cancelledAt.value && w.ties[i])
  {
    TimeLine(w, i);
    var fire := now + i * STEP;
    if w.cancelledAt.None? || fire < w.cancelledAt.value { return true; }
    if fire > w.cancelledAt.value { return false; }
    return w.ties[i];
  }

  /** Drain and close what a failed attempt has left, if anything. */
  method Discard(w: World, maxRetries: int, i: nat)
    requires WorldFor(w, maxRetries) && i < |w.bodies| && BodiesSettled(w, i, None)
    modifies w.bodies
    ensures BodiesSettled(w, i + 1, None)
  {
    if !w.attempts[i].Error? {
      var body := w.bodies[i];
      body.drained := body.drained + 1;
      body.closed := body.closed + 1;
    }
  }

  method RoundTrip(w: World, maxRetries: int) returns (r: Returned, ghost made: nat)
    requires WorldFor(w, maxRetries)
    requires BodiesSettled(w, 0, None)
    modifies w.bodies
    ensures Outcome(w, maxRetries, r, made)
    ensures BodiesSettled(w, made, r.response)
    ensures forall i :: 0 <= i < made && r.response != Some(i) && !w.attempts[i].Error? ==>
              w.bodies[i].drained == 1 && w.bodies[i].closed == 1
    ensures r.error.Some? && !r.error.value.Cancelled? && !r.error.value.CancelledDuringBackoff? ==>
              made > 0 && r.error.value == if w.attempts[made - 1].Answer? then ServerError(w.attempts[made - 1].status)
                                           else TransportError(w.attempts[made - 1].cause)
  {
    var lastErr := None;
    var now := 0;
    var i := 0;
    made := 0;
    while i <= maxRetries
      invariant 0 <= i && (i <= maxRetries + 1 || i == 0) && made == i
      invariant Reached(w, i)
      invariant now == CheckAt(w, i)
      invariant i == 0 ==> lastErr == None
      invariant i > 0 ==> lastErr.Some? && IsFailure(w.attempts[i - 1], lastErr.value)
      invariant BodiesSettled(w, i, None)
    {
      TimeLine(w, i);
      if CancelledBy(w, now) { return Returned(None, Some(Cancelled)), made; }
      if i > 0 {
        var fired := Backoff(w, now, i);
        if !fired { return Returned(None, Some(CancelledDuringBackoff)), made; }
        now := now + i * STEP;
      }
      var attempt := w.attempts[i];
      made := i + 1;
      if attempt.Answer? && attempt.status < 500 { return Returned(Some(i), None), made; }
      lastErr := Some(if attempt.Answer? then ServerError(attempt.status) else TransportError(attempt.cause));
      Discard(w, maxRetries, i);
      now := now + w.times[i];
      i := i + 1;
    }
    r := Returned(None, lastErr);
  }

  // ---- What the outcome means ----

  /**
    Drained once and closed once are the bodies of all attempts made that had a response, with
    or without an error, except the one handed to the caller; the others are untouched.
   */
  lemma BodiesInFull(w: World, maxRetries: int, r: Returned, made: nat, i: nat)
    requires WorldFor(w, maxRetries) && Outcome(w, maxRetries, r, made) && i < |w.bodies|
    requires BodiesSettled(w, made, r.response)
    ensures w.bodies[i].drained == w.bodies[i].closed
    ensures w.bodies[i].closed == 1 <==>
              i < made && !w.attempts[i].Error? && !(w.attempts[i].Answer? && w.attempts[i].status < 500)
    ensures w.bodies[i].closed == 0 <==> i >= made || w.attempts[i].Error? || r.response == Some(i)
  {
    var m := StoppedBecause(w, maxRetries, r, made);
  }

  /** Exactly one of response and error comes back, if and only if the number of retries is not negative. */
  lemma ExactlyOneReturned(w: World, maxRetries: int, r: Returned, made: nat)
    requires WorldFor(w, maxRetries) && Outcome(w, maxRetries, r, made)
    ensures (r.response.Some? <==> r.error.None?) <==> maxRetries >= 0
    ensures if maxRetries >= 0 then made <= maxRetries + 1 else made == 0
  {
  }

  /** The attempt at which the loop stopped was not allowed or was accepted, unless all were made. */
  lemma StoppedBecause(w: World, maxRetries: int, r: Returned, made: nat) returns (m: nat)
    requires WorldFor(w, maxRetries) && Outcome(w, maxRetries, r, made)
    ensures m == (if r.response.Some? then r.response.value else made) && m <= |w.attempts| && Reached(w, m)
    ensures forall j :: 0 <= j < m ==> Allowed(w, j) && !(w.attempts[j].Answer? && w.attempts[j].status < 500)
    ensures m <= maxRetries ==> !Allowed(w, m) || (w.attempts[m].Answer? && w.attempts[m].status < 500)
    ensures m > maxRetries ==> m == if maxRetries < 0 then 0 else maxRetries + 1
  {
    m := if r.response.Some? then r.response.value else made;
    forall j | 0 <= j < m ensures Allowed(w, j) && !(w.attempts[j].Answer? && w.attempts[j].status < 500) {
      assert Passed(w, j);
    }
  }

  /** The outcome is determined: the time line and the attempts leave no choice. */
  lemma OutcomeIsUnique(w: World, maxRetries: int, r: Returned, made: nat, r': Returned, made': nat)
    requires WorldFor(w, maxRetries) && Outcome(w, maxRetries, r, made) && Outcome(w, maxRetries, r', made')
    ensures r == r' && made == made'
  {
    var m := StoppedBecause(w, maxRetries, r, made);
    var m' := StoppedBecause(w, maxRetries, r', made');
    assert m == m';
  }

  /** The time line in closed form. */
  lemma TimesInClosedForm(w: World, i: nat)
    requires i < |w.times|
    ensures StartAt(w, i) == Sum(w.times[..i]) + 250 * i * (i + 1)
    ensures CheckAt(w, i) == Sum(w.times[..i]) + 250 * i * (i - 1)
  {
    SleptClosedForm(i);
    TimeLine(w, i);
    assert 250 * i * (i + 1) - 500 * i == 250 * i * (i - 1);
  }

  /** Attempt i is allowed, written out for its two instants. */
  lemma AllowedIff(w: World, i: nat, check: nat, start: nat)
    requires i < |w.times| && |w.ties| == |w.times| && check == CheckAt(w, i) && start == StartAt(w, i)
    ensures Allowed(w, i) <==>
              w.cancelledAt.None? ||
              (&& check < w.cancelledAt.value
               && (i > 0 ==> start <= w.cancelledAt.value && (start == w.cancelledAt.value ==> w.ties[i])))
  {
  }

  lemma {:induction false} CheckMonotone(w: World, i: nat, j: nat)
    requires i < j <= |w.times|
    ensures StartAt(w, i) <= CheckAt(w, j)
    decreases j
  {
    TimeLine(w, j - 1);
    if i < j - 1 { CheckMonotone(w, i, j - 1); }
  }

  /**
    Which attempts are made: attempt i exactly if none before it is a response below 500 and the
    context is not cancelled by its check nor, from the second attempt on, before its back-off ends.
   */
  lemma MadeIff(w: World, maxRetries: int, r: Returned, made: nat, i: nat)
    requires WorldFor(w, maxRetries) && Outcome(w, maxRetries, r, made) && i <= maxRetries
    ensures var check, start := Sum(w.times[..i]) + 250 * i * (i - 1), Sum(w.times[..i]) + 250 * i * (i + 1);
            i < made <==>
              && (forall j :: 0 <= j < i ==> !(w.attempts[j].Answer? && w.attempts[j].status < 500))
              && (w.cancelledAt.None? ||
                  (&& check < w.cancelledAt.value
                   && (i > 0 ==> start <= w.cancelledAt.value && (start == w.cancelledAt.value ==> w.ties[i]))))
  {
    TimesInClosedForm(w, i);
    AllowedIff(w, i, CheckAt(w, i), StartAt(w, i));
    MadeIffAllowed(w, maxRetries, r, made, i);
  }

  lemma MadeIffAllowed(w: World, maxRetries: int, r: Returned, made: nat, i: nat)
    requires WorldFor(w, maxRetries) && Outcome(w, maxRetries, r, made) && i <= maxRetries
    ensures i < made <==> Allowed(w, i) && forall j :: 0 <= j < i ==> !(w.attempts[j].Answer? && w.attempts[j].status < 500)
  {
    var m := StoppedBecause(w, maxRetries, r, made);
    if made <= i && Allowed(w, i) && m < i {
      CheckMonotone(w, m, i);
      TimeLine(w, m);
    }
  }

  /** Without cancellation: the first response below 500 is returned, or the last attempt's failure. */
  lemma UncancelledOutcome(w: World, maxRetries: nat, r: Returned, made: nat)
    requires WorldFor(w, maxRetries) && Outcome(w, maxRetries, r, made) && w.cancelledAt.None?
    ensures r.response.Some? <==> exists i :: 0 <= i <= maxRetries && w.attempts[i].Answer? && w.attempts[i].status < 500
    ensures r.response.Some? ==>
              var i := r.response.value;
              && i <= maxRetries && w.attempts[i].Answer? && w.attempts[i].status < 500
              && forall j :: 0 <= j < i ==> w.attempts[j].Answer? ==> w.attempts[j].status >= 500
    ensures r.response.None? ==> r.error.Some? && IsFailure(w.attempts[maxRetries], r.error.value)
    ensures made == if r.response.Some? then r.response.value + 1 else maxRetries + 1
  {
    var m := StoppedBecause(w, maxRetries, r, made);
  }

  /**
    No attempt starts after the cancellation, and a cancellation error means the context was
    cancelled by the check, or while the back-off of the attempt not made was running.
   */
  lemma CancellationIsRespected(w: World, maxRetries: int, r: Returned, made: nat)
    requires WorldFor(w, maxRetries) && Outcome(w, maxRetries, r, made)
    ensures w.cancelledAt.Some? ==> forall i :: 0 <= i < made ==> StartAt(w, i) <= w.cancelledAt.value
    ensures r.error == Some(Cancelled) ==> w.cancelledAt.Some? && w.cancelledAt.value <= CheckAt(w, made)
    ensures r.error == Some(CancelledDuringBackoff) ==>
              w.cancelledAt.Some? && CheckAt(w, made) < w.cancelledAt.value <= StartAt(w, made)
  {
    var m := StoppedBecause(w, maxRetries, r, made);
    forall i | 0 <= i < made ensures w.cancelledAt.Some? ==> StartAt(w, i) <= w.cancelledAt.value {
      assert Allowed(w, i);
      TimeLine(w, i);
    }
  }
}
