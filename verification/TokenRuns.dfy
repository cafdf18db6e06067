/** A managed token over any number of reconciles: each reads the Secret, mints when the
    token is due, writes the Secret, and sleeps until it is due again. */
module TokenRuns {
  import opened Messages
  import opened Text
  import opened TokenRenewal
  import Int64

  /** What the server would grant at a reconcile, and the random number drawn there. */
  datatype Turn = Turn(token: string, expiresIn: int, draw: nat)

  /** One reconcile: when, what the Secret held, and what was used from then on. */
  datatype Visit = Visit(at: int, found: Material, used: Material)

  datatype Keys = Keys(access: string, expires: string)

  /** A reconcile at time `now`. */
  function VisitAt(f: TimeFormat, keys: Keys, data: SecretData, now: int, turn: Turn): Visit {
    var found := Resolve(f, data, keys.access, keys.expires);
    Visit(now, found,
          if NeedsRenewal(found, now) then Material(turn.token, ExpiryOf(turn.expiresIn, now)) else found)
  }

  /** The Secret behind it. */
  function Kept(f: TimeFormat, keys: Keys, data: SecretData, v: Visit): SecretData {
    if NeedsRenewal(v.found, v.at) then Apply(f, data, keys.access, keys.expires, v.used) else data
  }

  function NextAt(poll: int, v: Visit, draw: nat): int {
    v.at + Requeue(poll, v.used.expiresAt, v.at, draw)
  }

  /** All reconciles from time `now` on, each at the time the one before asked for. */
  function Visits(f: TimeFormat, keys: Keys, poll: int, data: SecretData, now: int, turns: seq<Turn>): seq<Visit>
    decreases |turns|
  {
    if turns == [] then []
    else
      var v := VisitAt(f, keys, data, now, turns[0]);
      [v] + Visits(f, keys, poll, Kept(f, keys, data, v), NextAt(poll, v, turns[0].draw), turns[1..])
  }

  /** A token as a Secret can hold it, that lives for the given number of seconds at
      least, or has no expiry. */
  predicate Grants(turn: Turn, seconds: int) {
    turn.token != "" && Tight(turn.token) && (turn.expiresIn > 0 ==> turn.expiresIn >= seconds)
  }

  /** The token is there and valid for longer than `margin`. */
  predicate ValidFor(m: Material, now: int, margin: int) {
    m.token != "" && (m.expiresAt.Some? ==> m.expiresAt.value - now > margin)
  }

  /** What is read back of a visit's token: what was read there, or, after a mint, what
      was minted, its expiry in whole seconds. */
  function ReadBack(v: Visit): Material {
    if NeedsRenewal(v.found, v.at) && v.used.expiresAt.Some?
    then v.used.(expiresAt := Some(WholeSeconds(v.used.expiresAt.value))) else v.used
  }

  lemma NextFinds(f: TimeFormat, keys: Keys, poll: int, data: SecretData, now: int, turn: Turn)
    requires Understands(f) && keys.access != keys.expires && poll > 0 && Grants(turn, 2)
    ensures var v := VisitAt(f, keys, data, now, turn);
      var found := Resolve(f, Kept(f, keys, data, v), keys.access, keys.expires);
      var next := NextAt(poll, v, turn.draw);
      && found == ReadBack(v)
      && next > now
      && ValidFor(found, next, 0)
      && (Grants(turn, 61) ==> ValidFor(found, next, 59 * SECOND - 1))
  {
    var v := VisitAt(f, keys, data, now, turn);
    if NeedsRenewal(v.found, now) {
      SecretRoundTrip(f, data, keys.access, keys.expires, v.used);
      if turn.expiresIn > 0 {
        ClampNeverOverflows(turn.expiresIn, now);
      }
    }
    if v.used.expiresAt.Some? {
      RequeueBounds(poll, v.used.expiresAt.value, now, turn.draw);
    }
  }

  /** The next reconcile finds the token this one used, still usable; if tokens live
      for 61 seconds or more, for at least 59 more seconds; and it mints only in the last
      60 seconds. */
  predicate KeepsToken(v: Visit, next: Visit, seconds: int) {
    && v.at < next.at && next.found == ReadBack(v)
    && HasUsableToken(next.found, next.at)
    && (seconds >= 61 ==> ValidFor(next.found, next.at, 59 * SECOND - 1))
    && (next.used != next.found ==>
          next.found.expiresAt.Some? && next.found.expiresAt.value - next.at < RENEWAL_SKEW)
  }

  predicate AllKeepToken(vs: seq<Visit>, seconds: int) {
    forall i | 0 < i < |vs| :: KeepsToken(vs[i - 1], vs[i], seconds)
  }

  /** From any Secret on and for every draw: no reconcile but the first ever finds a token
      that is missing or expired, so a renewal that fails can go on with it. */
  lemma {:induction false} TokenAlwaysUsable(f: TimeFormat, keys: Keys, poll: int, data: SecretData, now: int,
                                             turns: seq<Turn>, seconds: int)
    requires Understands(f) && keys.access != keys.expires && poll > 0
    requires seconds >= 2 && forall turn | turn in turns :: Grants(turn, seconds)
    ensures AllKeepToken(Visits(f, keys, poll, data, now, turns), seconds)
    decreases |turns|
  {
    if |turns| > 1 {
      var v := VisitAt(f, keys, data, now, turns[0]);
      var kept, next := Kept(f, keys, data, v), NextAt(poll, v, turns[0].draw);
      StepKeepsToken(f, keys, poll, data, now, turns[0], turns[1], seconds);
      TokenAlwaysUsable(f, keys, poll, kept, next, turns[1..], seconds);
      OneMoreKeeps(v, Visits(f, keys, poll, kept, next, turns[1..]), seconds);
    }
  }

  lemma OneMoreKeeps(v: Visit, rest: seq<Visit>, seconds: int)
    requires rest != [] && KeepsToken(v, rest[0], seconds) && AllKeepToken(rest, seconds)
    ensures AllKeepToken([v] + rest, seconds)
  {
    var vs := [v] + rest;
    forall i | 0 < i < |vs| ensures KeepsToken(vs[i - 1], vs[i], seconds) {
      if i > 1 {
        assert vs[i] == rest[i - 1] && vs[i - 1] == rest[i - 2];
      }
    }
  }

  lemma StepKeepsToken(f: TimeFormat, keys: Keys, poll: int, data: SecretData, now: int,
                       turn: Turn, after: Turn, seconds: int)
    requires Understands(f) && keys.access != keys.expires && poll > 0 && seconds >= 2 && Grants(turn, seconds)
    ensures var v := VisitAt(f, keys, data, now, turn);
      KeepsToken(v, VisitAt(f, keys, Kept(f, keys, data, v), NextAt(poll, v, turn.draw), after), seconds)
  {
    NextFinds(f, keys, poll, data, now, turn);
  }

  /** One reconcile of the Secret, with a server that grants and writes that succeed. */
  method ReconcileToken(secret: TokenSecret, f: TimeFormat, poll: int, now: int, turn: Turn)
    returns (visit: Visit, requeue: int)
    modifies secret
    ensures var keys := Keys(secret.accessKey, secret.expiresKey);
      && visit == VisitAt(f, keys, old(secret.data), now, turn)
      && secret.data == Kept(f, keys, old(secret.data), visit)
      && now + requeue == NextAt(poll, visit, turn.draw)
  {
    var found := secret.ResolveMaterial(f);
    var used, failed := secret.EnsureToken(f, found, now, Granted(turn.token, turn.expiresIn), true);
    visit := Visit(now, found, used);
    requeue := Requeue(poll, used.expiresAt, now, turn.draw);
  }
}
