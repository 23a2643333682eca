/** The nonce table of HTTP Digest authentication (RFC 2617, sections 3.2.1 and 3.2.2): challenges,
    the use limit and the sweep of stale nonces. */
module DigestNonces {
  import opened GoStrings

  /** Five minutes in nanoseconds. */
  const NONCE_TTL: int := 300_000_000_000

  const MAX_NONCE_USE: nat := 1000

  datatype NonceEntry = NonceEntry(created: int, used: nat)

  type Nonces = map<string, NonceEntry>

  /** The fields of a Digest Authorization header; a missing field is "". */
  datatype Credentials = Credentials(username: string, realm: string, nonce: string, uri: string, qop: string,
                                     nc: string,
                                     cnonce: string, response: string)

  /** auth is None without a Digest header. */
  datatype Request = Request(verb: string, auth: Option<Credentials>)

  datatype Outcome = Accepted(username: string) | Challenge(nonce: string)

  /** The server's side of the digest computation. */
  datatype Secret = Secret(password: string, md5: string -> string)

  predicate Complete(r: Request) {
    r.auth.Some? &&
      var c := r.auth.value;
      c.username != "" && c.realm != "" && c.nonce != "" && c.uri != "" && c.response != ""
  }

  predicate Presents(r: Request, nonce: string) {
    Complete(r) && r.auth.value.nonce == nonce
  }

  function Expected(r: Request, secret: Secret): string
    requires r.auth.Some?
  {
    var c := r.auth.value;
    var ha1 := secret.md5(c.username + ":" + c.realm + ":" + secret.password);
    var ha2 := secret.md5(r.verb + ":" + c.uri);
    if c.qop == "auth" || c.qop == "auth-int" then
      secret.md5(ha1 + ":" + c.nonce + ":" + c.nc + ":" + c.cnonce + ":" + c.qop + ":" + ha2)
    else
      secret.md5(ha1 + ":" + c.nonce + ":" + ha2)
  }

  predicate Matches(r: Request, secret: Secret) {
    r.auth.Some? && EqualFold(r.auth.value.response, Expected(r, secret))
  }

  // ---- one request ----

  function Swept(nonces: Nonces, now: int): Nonces {
    map n | n in nonces && nonces[n].created >= now - NONCE_TTL :: nonces[n]
  }

  /** Every complete request that presents a known nonce uses it up once, whether or not it is accepted. */
  function Counted(nonces: Nonces, r: Request): Nonces {
    if Complete(r) && r.auth.value.nonce in nonces then
      var n := r.auth.value.nonce;
      nonces[n := NonceEntry(nonces[n].created, nonces[n].used + 1)]
    else nonces
  }

  predicate Passes(nonces: Nonces, r: Request, secret: Secret) {
    && Complete(r) && r.auth.value.nonce in nonces && nonces[r.auth.value.nonce].used < MAX_NONCE_USE
    && Matches(r, secret)
  }

  /** A request at the moment of the sweep, with the nonce and the later moment of a challenge. */
  datatype Event = Event(request: Request, now: int, later: int, uuid: string)

  function OutcomeOf(nonces: Nonces, e: Event, secret: Secret): Outcome {
    if Passes(Swept(nonces, e.now), e.request, secret) then Accepted(e.request.auth.value.username)
      else Challenge(e.uuid)
  }

  function Step(nonces: Nonces, e: Event, secret: Secret): Nonces {
    var counted := Counted(Swept(nonces, e.now), e.request);
    if OutcomeOf(nonces, e, secret).Accepted? then counted else counted[e.uuid := NonceEntry(e.later, 0)]
  }

  // ---- runs ----

  function Run(evs: seq<Event>, secret: Secret): Nonces {
    if evs == [] then map[] else Step(Run(evs[..|evs| - 1], secret), evs[|evs| - 1], secret)
  }

  /** The outcome of the last request of a run. */
  function LastOutcome(evs: seq<Event>, secret: Secret): Outcome
    requires evs != []
  {
    OutcomeOf(Run(evs[..|evs| - 1], secret), evs[|evs| - 1], secret)
  }

  predicate LastIssues(evs: seq<Event>, secret: Secret, n: string)
    requires evs != []
  {
    LastOutcome(evs, secret) == Challenge(n)
  }

  /** The clock never runs backwards and UUIDs never repeat. */
  predicate Orderly(evs: seq<Event>) {
    evs == [] ||
    (var init, e := evs[..|evs| - 1], evs[|evs| - 1];
     && Orderly(init) && e.now <= e.later && (init != [] ==> init[|init| - 1].later <= e.now)
     && forall f | f in init :: f.uuid != e.uuid)
  }

  // ---- history of a nonce, from the outcomes alone ----

  function IssuedAt(evs: seq<Event>, secret: Secret, n: string): Option<int> {
    if evs == [] then None
    else if LastIssues(evs, secret, n) then Some(evs[|evs| - 1].later)
    else IssuedAt(evs[..|evs| - 1], secret, n)
  }

  /** Complete requests that presented n since it was issued. */
  function Uses(evs: seq<Event>, secret: Secret, n: string): nat {
    if evs == [] || LastIssues(evs, secret, n) then 0
    else Uses(evs[..|evs| - 1], secret, n) + if Presents(evs[|evs| - 1].request, n) then 1 else 0
  }

  function Acceptances(evs: seq<Event>, secret: Secret, n: string): nat {
    if evs == [] then 0 else
      var before := Acceptances(evs[..|evs| - 1], secret, n);
      if LastOutcome(evs, secret).Accepted? && Presents(evs[|evs| - 1].request, n) then before + 1 else before
  }

  lemma {:induction false} OnlyUuidsAreIssued(evs: seq<Event>, secret: Secret, n: string)
    ensures IssuedAt(evs, secret, n).Some? ==> exists e | e in evs :: e.uuid == n
  {
    if evs != [] {
      var init := evs[..|evs| - 1];
      OnlyUuidsAreIssued(init, secret, n);
      assert evs[|evs| - 1] in evs && forall e | e in init :: e in evs;
    }
  }

  /** n is in the table with these facts, or absent. */
  predicate Holds(nonces: Nonces, n: string, present: bool, created: int, used: nat) {
    if present then n in nonces && nonces[n] == NonceEntry(created, used) else n !in nonces
  }

  lemma SweptHolds(nonces: Nonces, n: string, present: bool, created: int, used: nat, now: int)
    requires Holds(nonces, n, present, created, used)
    ensures Holds(Swept(nonces, now), n, present && created >= now - NONCE_TTL, created, used)
  {
  }

  lemma StepHolds(nonces: Nonces, e: Event, secret: Secret, n: string, present: bool, created: int, used: nat)
    requires Holds(nonces, n, present, created, used)
    ensures OutcomeOf(nonces, e, secret) == Challenge(n) ==> Holds(Step(nonces, e, secret), n, true, e.later, 0)
    ensures OutcomeOf(nonces, e, secret) != Challenge(n) ==>
      Holds(Step(nonces, e, secret), n, present && created >= e.now - NONCE_TTL, created, used + if Presents(e.request,
        n) then 1 else 0)
  {
    SweptHolds(nonces, n, present, created, used, e.now);
  }

  function LastSweep(evs: seq<Event>): int
    requires evs != []
  {
    evs[|evs| - 1].now
  }

  /** The table holds exactly the nonces issued at most five minutes before the last sweep, each with its time of
      issue and the number of requests that presented it since. */
  lemma {:induction false} TableIsHistory(evs: seq<Event>, secret: Secret, n: string)
    requires Orderly(evs) && evs != []
    ensures var at := IssuedAt(evs, secret, n);
      Holds(Run(evs, secret), n, at.Some? && at.value >= LastSweep(evs) - NONCE_TTL, at.Or(0), Uses(evs, secret, n))
  {
    var init, e := evs[..|evs| - 1], evs[|evs| - 1];
    if init == [] {
      StepHolds(map[], e, secret, n, false, 0, 0);
    } else {
      TableIsHistory(init, secret, n);
      var at := IssuedAt(init, secret, n);
      StepHolds(Run(init, secret), e, secret, n, at.Some? && at.value >= LastSweep(init) - NONCE_TTL, at.Or(0),
        Uses(init, secret, n));
    }
  }

  /** The response that RFC 2617, section 3.2.2.1, asks for. */
  predicate AnswersDigest(verb: string, c: Credentials, secret: Secret) {
    var h1, h2 := secret.md5(c.username + ":" + c.realm + ":" + secret.password), secret.md5(verb + ":" + c.uri);
    var middle := if c.qop == "auth" || c.qop == "auth-int" then c.nc + ":" + c.cnonce + ":" + c.qop + ":" else "";
    EqualFold(c.response, secret.md5(h1 + ":" + c.nonce + ":" + middle + h2))
  }

  lemma MatchesIsDigest(r: Request, secret: Secret)
    ensures Matches(r, secret) <==> r.auth.Some? && AnswersDigest(r.verb, r.auth.value, secret)
  {
    if r.auth.Some? {
      var c := r.auth.value;
      var h1, h2 := secret.md5(c.username + ":" + c.realm + ":" + secret.password), secret.md5(r.verb + ":" + c.uri);
      assert h1 + ":" + c.nonce + ":" + "" + h2 == h1 + ":" + c.nonce + ":" + h2;
      assert h1 + ":" + c.nonce + ":" + (c.nc + ":" + c.cnonce + ":" + c.qop + ":") + h2 ==
        h1 + ":" + c.nonce + ":" + c.nc + ":" + c.cnonce + ":" + c.qop + ":" + h2;
    }
  }

  /** A request is accepted exactly when it has all fields, its nonce was issued at most five minutes before the sweep,
      fewer than 1000 requests presented that nonce since, and the digest matches. */
  lemma AcceptedIff(evs: seq<Event>, e: Event, secret: Secret)
    requires Orderly(evs + [e])
    ensures LastOutcome(evs + [e], secret).Accepted? <==>
      && e.request.auth.Some?
      && var c := e.request.auth.value;
         && c.username != "" && c.realm != "" && c.nonce != "" && c.uri != "" && c.response != ""
         && AnswersDigest(e.request.verb, c, secret)
         && IssuedAt(evs, secret, c.nonce).Some? && IssuedAt(evs, secret, c.nonce).value >= e.now - 300_000_000_000
         && Uses(evs, secret, c.nonce) < 1000
  {
    AcceptedByTable(evs, e, secret);
    MatchesIsDigest(e.request, secret);
  }

  lemma AcceptedByTable(evs: seq<Event>, e: Event, secret: Secret)
    requires Orderly(evs + [e])
    ensures LastOutcome(evs + [e], secret).Accepted? <==>
      && Complete(e.request) && Matches(e.request, secret)
      && var n := e.request.auth.value.nonce;
         && IssuedAt(evs, secret, n).Some? && IssuedAt(evs, secret, n).value >= e.now - NONCE_TTL
         && Uses(evs, secret, n) < MAX_NONCE_USE
  {
    assert (evs + [e])[..|evs|] == evs;
    if Complete(e.request) {
      var n := e.request.auth.value.nonce;
      if evs == [] {
      } else {
        var at := IssuedAt(evs, secret, n);
        TableIsHistory(evs, secret, n);
        SweptHolds(Run(evs, secret), n, at.Some? && at.value >= LastSweep(evs) - NONCE_TTL, at.Or(0),
          Uses(evs, secret, n), e.now);
      }
    }
  }

  lemma {:induction false} AcceptancesAreUses(evs: seq<Event>, secret: Secret, n: string)
    requires Orderly(evs)
    ensures Acceptances(evs, secret, n) <= Uses(evs, secret, n) && Acceptances(evs, secret, n) <= MAX_NONCE_USE
    ensures IssuedAt(evs, secret, n).None? ==> Acceptances(evs, secret, n) == 0
  {
    if evs != [] {
      var init, e := evs[..|evs| - 1], evs[|evs| - 1];
      assert evs == init + [e];
      AcceptancesAreUses(init, secret, n);
      AcceptedByTable(init, e, secret);
      OnlyUuidsAreIssued(init, secret, n);
    }
  }

  /** Over every run each nonce is accepted at most 1000 times. */
  lemma NonceUseIsBounded(evs: seq<Event>, secret: Secret, n: string)
    requires Orderly(evs)
    ensures Acceptances(evs, secret, n) <= 1000
  {
    AcceptancesAreUses(evs, secret, n);
  }

  // ---- the code ----

  class DigestAuth {
    const secret: Secret
    var nonces: Nonces

    constructor (secret: Secret)
      ensures nonces == map[] && this.secret == secret
    {
      this.secret := secret;
      nonces := map[];
    }

    method CleanStaleNonces(now: int)
      modifies this`nonces
      ensures nonces == Swept(old(nonces), now)
    {
      var cutoff := now - NONCE_TTL;
      ghost var before := nonces;
      var todo := nonces.Keys;
      while todo != {}
        invariant todo <= before.Keys
        invariant nonces == map n | n in before && (n in todo || before[n].created >= cutoff) :: before[n]
        decreases |todo|
      {
        var n :| n in todo;
        if nonces[n].created < cutoff {
          nonces := nonces - {n};
        }
        todo := todo - {n};
      }
    }

    method NewNonce(uuid: string, now: int)
      modifies this`nonces
      ensures nonces == old(nonces)[uuid := NonceEntry(now, 0)]
    {
      nonces := nonces[uuid := NonceEntry(now, 0)];
    }

    method ValidateRequest(r: Request) returns (username: string, ok: bool)
      modifies this`nonces
      ensures nonces == Counted(old(nonces), r)
      ensures ok == Passes(old(nonces), r, secret)
      ensures username == if ok then r.auth.value.username else ""
    {
      if r.auth.None? {
        return "", false;
      }
      var c := r.auth.value;
      if c.username == "" || c.realm == "" || c.nonce == "" || c.uri == "" || c.response == "" {
        return "", false;
      }
      if c.nonce !in nonces {
        return "", false;
      }
      var entry := nonces[c.nonce];
      entry := entry.(used := entry.used + 1);
      nonces := nonces[c.nonce := entry];
      if entry.used > MAX_NONCE_USE {
        return "", false;
      }
      if !EqualFold(c.response, Expected(r, secret)) {
        return "", false;
      }
      return c.username, true;
    }

    /** One request through the middleware: sweep, validate, and challenge on failure. */
    method Middleware(e: Event) returns (outcome: Outcome)
      modifies this`nonces
      ensures outcome == OutcomeOf(old(nonces), e, secret)
      ensures nonces == Step(old(nonces), e, secret)
    {
      CleanStaleNonces(e.now);
      var username, ok := ValidateRequest(e.request);
      if !ok {
        NewNonce(e.uuid, e.later);
        return Challenge(e.uuid);
      }
      return Accepted(username);
    }
  }
}
