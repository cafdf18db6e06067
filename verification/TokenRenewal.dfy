/** Keeping a machine-managed access token fresh (RFC 6749, sections 4.4 and 5.1):
    when it is renewed, when the controller wakes, and what the Secret holds. */
module TokenRenewal {
  import opened Messages
  import opened Text
  import Int64

  const SECOND := 1_000_000_000                 // every time below is in nanoseconds
  const RENEWAL_SKEW := 60 * SECOND
  const JITTER_DIVISOR := 10
  const MAX_EXPIRES_IN := 10 * 365 * 24 * 3600  // seconds

  datatype Material = Material(token: string, expiresAt: Option<int>)

  predicate NeedsRenewal(m: Material, now: int) {
    m.token == "" || (m.expiresAt.Some? && m.expiresAt.value - now < RENEWAL_SKEW)
  }

  predicate HasUsableToken(m: Material, now: int) {
    m.token != "" && (m.expiresAt.Some? ==> now < m.expiresAt.value)
  }

  /** The product in seconds and nanoseconds as int64 arithmetic yields it. */
  function Nanoseconds(seconds: int): int {
    Int64.Wrap(seconds * SECOND)
  }

  function ExpiryOf(expiresIn: int, now: int): Option<int> {
    if expiresIn > 0 then Some(now + Nanoseconds(if expiresIn < MAX_EXPIRES_IN then expiresIn else MAX_EXPIRES_IN))
    else None
  }

  /** The clamp keeps the lifetime exact up to ten years and in the future always; a
      grant that names no lifetime has no expiry. */
  lemma ClampNeverOverflows(expiresIn: int, now: int)
    ensures var at := ExpiryOf(expiresIn, now);
      if expiresIn <= 0 then at == None
      else at == Some(now + (if expiresIn < 315_360_000 then expiresIn else 315_360_000) * 1_000_000_000)
  {
    if expiresIn > 0 {
      var seconds := if expiresIn < MAX_EXPIRES_IN then expiresIn else MAX_EXPIRES_IN;
      Int64.WrapResidue(seconds * SECOND);
    }
  }

  /** Without the clamp a lifetime of 300 years would lie in the past. */
  lemma UnclampedOverflows()
    ensures Nanoseconds(300 * 365 * 24 * 3600) < 0
  {
    Int64.WrapResidue(300 * 365 * 24 * 3600 * SECOND);
  }

  /** The delay until the next wake. `draw` is any random number; it is reduced to
      at most a tenth of the wait. */
  function Requeue(poll: int, expiresAt: Option<int>, now: int, draw: nat): int {
    if expiresAt.None? then poll
    else
      var untilRenewal := expiresAt.value - now - RENEWAL_SKEW;
      var jittered := if untilRenewal > 0 then untilRenewal - draw % (untilRenewal / JITTER_DIVISOR + 1) else untilRenewal;
      var floored := if jittered < SECOND then SECOND else jittered;
      if floored < poll then floored else poll
  }

  function Min(a: int, b: int): int {
    if a < b then a else b
  }

  function Max(a: int, b: int): int {
    if a < b then b else a
  }

  /** Whatever the draw, the controller wakes no later than the token is due and no
      earlier than a tenth of the wait before that, a second and the poll interval aside;
      without an expiry it wakes after the poll interval. */
  lemma RequeueBounds(poll: int, expiresAt: int, now: int, draw: nat)
    requires poll > 0
    ensures var d := Requeue(poll, Some(expiresAt), now, draw);
      var wait := expiresAt - now - RENEWAL_SKEW;
      && Min(poll, SECOND) <= d <= Min(poll, Max(SECOND, wait))
      && d >= Min(poll, wait - wait / 10)
    ensures Requeue(poll, None, now, draw) == poll
  {
    var wait := expiresAt - now - RENEWAL_SKEW;
    if wait > 0 {
      var bound := wait / JITTER_DIVISOR + 1;
      assert 0 <= draw % bound < bound;
    }
  }

  /** A time as the Secret keeps it: whole seconds. */
  function WholeSeconds(t: int): (w: int)
    ensures w <= t < w + SECOND
  {
    t / SECOND * SECOND
  }

  /** The wakes after a mint at time `now`, up to the first that renews. `known` is
      the expiry the controller goes by: the exact one in the reconcile that minted,
      the stored one afterwards. */
  function Wakes(poll: int, expiresAt: int, known: int, now: int, draws: seq<nat>): seq<int>
    decreases |draws|
  {
    if draws == [] then []
    else
      var stored := WholeSeconds(expiresAt);
      var wake := now + Requeue(poll, Some(known), now, draws[0]);
      [wake] + if Renews(stored, wake) then [] else Wakes(poll, expiresAt, stored, wake, draws[1..])
  }

  predicate Renews(stored: int, now: int) {
    stored - now < RENEWAL_SKEW
  }

  /** Whatever the draws: only the last wake can renew; and if the token was not yet
      due when the controller went to sleep, it is still valid for 59 seconds then. */
  lemma {:induction false} RenewedInTime(poll: int, expiresAt: int, known: int, now: int, draws: seq<nat>)
    requires poll > 0 && WholeSeconds(expiresAt) <= known <= expiresAt
    ensures var ws := Wakes(poll, expiresAt, known, now, draws);
      && (forall i | 0 <= i < |ws| - 1 :: !Renews(WholeSeconds(expiresAt), ws[i]))
      && (known - now >= 59 * SECOND + Min(SECOND, poll) && ws != [] ==> expiresAt - ws[|ws| - 1] >= 59 * SECOND)
    decreases |draws|
  {
    if draws != [] {
      var stored := WholeSeconds(expiresAt);
      var wake := now + Requeue(poll, Some(known), now, draws[0]);
      RequeueBounds(poll, known, now, draws[0]);
      if !Renews(stored, wake) {
        RenewedInTime(poll, expiresAt, stored, wake, draws[1..]);
        var rest := Wakes(poll, expiresAt, stored, wake, draws[1..]);
        assert Wakes(poll, expiresAt, known, now, draws) == [wake] + rest;
      }
    }
  }

  /** Each wake is at least min(poll, 1 s) after the one before, so some wake renews
      before more of them happen than fit into the token's lifetime. */
  lemma {:induction false} RenewalHappens(poll: int, expiresAt: int, known: int, now: int, draws: seq<nat>)
    requires poll > 0
    requires expiresAt - now < |draws| * Min(poll, SECOND)
    requires draws != []
    ensures var ws := Wakes(poll, expiresAt, known, now, draws);
      ws != [] && Renews(WholeSeconds(expiresAt), ws[|ws| - 1])
    decreases |draws|
  {
    var stored, step := WholeSeconds(expiresAt), Min(poll, SECOND);
    var wake := now + Requeue(poll, Some(known), now, draws[0]);
    RequeueBounds(poll, known, now, draws[0]);
    if !Renews(stored, wake) {
      assert |draws| * step == |draws[1..]| * step + step;
      RenewalHappens(poll, expiresAt, stored, wake, draws[1..]);
    }
  }

  /** The last wake of the run finds a token that is valid for 59 more seconds. */
  predicate StillValid(poll: int, expiresAt: int, mintedAt: int, draws: seq<nat>) {
    var ws := Wakes(poll, expiresAt, expiresAt, mintedAt, draws);
    ws != [] ==> expiresAt - ws[|ws| - 1] >= 59 * SECOND
  }

  /** The first renewal always finds at least 59 seconds of validity left, for every
      draw, exactly when the token lives for at least 59 s + min(1 s, poll). */
  lemma SafeRenewal(poll: int, expiresAt: int, mintedAt: int)
    requires poll > 0
    ensures (forall draws :: StillValid(poll, expiresAt, mintedAt, draws))
            <==> expiresAt - mintedAt >= 59 * SECOND + Min(SECOND, poll)
  {
    if expiresAt - mintedAt >= 59 * SECOND + Min(SECOND, poll) {
      forall draws ensures StillValid(poll, expiresAt, mintedAt, draws) {
        RenewedInTime(poll, expiresAt, expiresAt, mintedAt, draws);
      }
    } else {
      var draws: seq<nat> := [0];
      RequeueBounds(poll, expiresAt, mintedAt, 0);
      assert draws[1..] == [];
      assert Wakes(poll, expiresAt, expiresAt, mintedAt, draws) == [mintedAt + Requeue(poll, Some(expiresAt), mintedAt, 0)];
      assert !StillValid(poll, expiresAt, mintedAt, draws);
    }
  }

  /** At every wake up to and including the one that renews, the token as stored is
      usable, so a renewal that fails there can go on with it. */
  lemma OldTokenOutlivesRenewal(poll: int, expiresAt: int, mintedAt: int, draws: seq<nat>, token: string)
    requires poll > 0 && token != "" && expiresAt - mintedAt >= 59 * SECOND + Min(SECOND, poll)
    ensures forall wake | wake in Wakes(poll, expiresAt, expiresAt, mintedAt, draws) ::
      HasUsableToken(Material(token, Some(WholeSeconds(expiresAt))), wake)
  {
    RenewedInTime(poll, expiresAt, expiresAt, mintedAt, draws);
    var ws := Wakes(poll, expiresAt, expiresAt, mintedAt, draws);
    forall wake | wake in ws ensures HasUsableToken(Material(token, Some(WholeSeconds(expiresAt))), wake) {
      var i :| 0 <= i < |ws| && ws[i] == wake;
      assert i < |ws| - 1 ==> !Renews(WholeSeconds(expiresAt), ws[i]);
    }
  }

  /** How times are printed, in whole seconds, and read, in nanoseconds: a time written
      by others may have a fraction. The reader understands what the printer writes,
      which has no blanks around it. */
  datatype TimeFormat = TimeFormat(format: int -> string, parse: string -> Option<int>)

  ghost predicate Understands(f: TimeFormat) {
    forall s :: f.parse(f.format(s)) == Some(s * SECOND) && f.format(s) != "" && Tight(f.format(s))
  }

  type SecretData = map<string, string>

  function Apply(f: TimeFormat, data: SecretData, accessKey: string, expiresKey: string, m: Material): SecretData {
    var withToken := data[accessKey := m.token];
    if m.expiresAt.Some? then withToken[expiresKey := f.format(m.expiresAt.value / SECOND)]
    else withToken - {expiresKey}
  }

  function Resolve(f: TimeFormat, data: SecretData, accessKey: string, expiresKey: string): Material {
    Material(
      if accessKey in data then TrimSpace(data[accessKey]) else "",
      if expiresKey in data && data[expiresKey] != "" then f.parse(TrimSpace(data[expiresKey])) else None)
  }

  /** Reading back what was written gives the expiry in whole seconds, and the token
      exactly when it has no blanks around it; keys of other owners are kept. */
  lemma SecretRoundTrip(f: TimeFormat, data: SecretData, accessKey: string, expiresKey: string, m: Material)
    requires Understands(f) && accessKey != expiresKey
    ensures var written := Apply(f, data, accessKey, expiresKey, m);
      var back := Resolve(f, written, accessKey, expiresKey);
      && (back.token == m.token <==> Tight(m.token))
      && back.expiresAt == (if m.expiresAt.Some? then Some(WholeSeconds(m.expiresAt.value)) else None)
      && written - {accessKey, expiresKey} == data - {accessKey, expiresKey}
  {
    TrimFixed(m.token);
    if m.expiresAt.Some? {
      TrimFixed(f.format(m.expiresAt.value / SECOND));
    }
  }

  /** What a Secret written by anyone is read as: the token without the blanks around it,
      and empty if there is none; and an expiry exactly if there is one that can be read. */
  lemma ReadAsItStands(f: TimeFormat, data: SecretData, accessKey: string, expiresKey: string)
    ensures var m := Resolve(f, data, accessKey, expiresKey);
      && Tight(m.token)
      && (if accessKey in data then Surrounded(data[accessKey], m.token) else m.token == "")
      && (m.expiresAt.Some? <==>
            expiresKey in data && data[expiresKey] != "" && f.parse(TrimSpace(data[expiresKey])).Some?)
      && (m.expiresAt.Some? ==> m.expiresAt == f.parse(TrimSpace(data[expiresKey])))
  {
    if accessKey in data {
      var left, right := TrimSpaceCuts(data[accessKey]);
      assert data[accessKey] == left + TrimSpace(data[accessKey]) + right;
    }
  }

  /** The text is the inner one with blanks around it. */
  ghost predicate Surrounded(text: string, inner: string) {
    exists left, right :: Blank(left) && Blank(right) && text == left + inner + right
  }

  /** With one key for both, the expiry takes the place of the token. */
  lemma SharedKeyLosesToken(f: TimeFormat, data: SecretData, key: string, m: Material)
    requires Understands(f)
    ensures Resolve(f, Apply(f, data, key, key, m), key, key).token
            == if m.expiresAt.Some? then f.format(m.expiresAt.value / SECOND) else ""
  {
    if m.expiresAt.Some? {
      TrimFixed(f.format(m.expiresAt.value / SECOND));
    }
  }

  /** How an acquisition can end: not tried yet because discovery has not run,
      failed before or at the token endpoint, or granted. */
  datatype Acquisition = Deferred | Refused | Granted(token: string, expiresIn: int)

  /** The Secret, as the controller updates it. */
  class TokenSecret {
    var data: SecretData
    const accessKey: string
    const expiresKey: string

    constructor (accessKey: string, expiresKey: string, data: SecretData)
      ensures this.accessKey == accessKey && this.expiresKey == expiresKey && this.data == data
    {
      this.accessKey, this.expiresKey, this.data := accessKey, expiresKey, data;
    }

    method ApplyTokenData(f: TimeFormat, m: Material)
      modifies this`data
      ensures data == Apply(f, old(data), accessKey, expiresKey, m)
    {
      data := data[accessKey := m.token];
      if m.expiresAt.Some? {
        data := data[expiresKey := f.format(m.expiresAt.value / SECOND)];
      } else {
        data := data - {expiresKey};
      }
    }

    method ResolveMaterial(f: TimeFormat) returns (m: Material)
      ensures m == Resolve(f, data, accessKey, expiresKey)
    {
      m := Material("", None);
      if accessKey in data {
        m := m.(token := TrimSpace(data[accessKey]));
      }
      if expiresKey in data && |data[expiresKey]| > 0 {
        var at := f.parse(TrimSpace(data[expiresKey]));
        if at.Some? {
          m := m.(expiresAt := at);
        }
      }
    }

    /** A token that is not due is neither replaced nor rewritten. A due one is
        replaced when the server grants a token and the Secret can be written; then
        the next read finds it. In every other case the old material is kept. */
    method EnsureToken(f: TimeFormat, m: Material, now: int, acquisition: Acquisition, writeOk: bool)
      returns (current: Material, failed: bool)
      modifies this`data
      ensures !NeedsRenewal(m, now) ==> current == m && !failed && data == old(data)
      ensures NeedsRenewal(m, now) && acquisition.Granted? && writeOk ==>
        && current == Material(acquisition.token, ExpiryOf(acquisition.expiresIn, now)) && !failed
        && data == Apply(f, old(data), accessKey, expiresKey, current)
      ensures !(NeedsRenewal(m, now) && acquisition.Granted? && writeOk) ==> current == m && data == old(data)
      ensures failed <==> NeedsRenewal(m, now) && !acquisition.Deferred? && !(acquisition.Granted? && writeOk)
    {
      if !NeedsRenewal(m, now) || acquisition.Deferred? {
        return m, false;
      }
      if acquisition.Refused? {
        return m, true;
      }
      var expiresAt: Option<int> := None;
      if acquisition.expiresIn > 0 {
        var seconds := if acquisition.expiresIn < MAX_EXPIRES_IN then acquisition.expiresIn else MAX_EXPIRES_IN;
        expiresAt := Some(now + Nanoseconds(seconds));
      }
      if !writeOk {
        return m, true;
      }
      ApplyTokenData(f, Material(acquisition.token, expiresAt));
      current, failed := Material(acquisition.token, expiresAt), false;
    }
  }
}
