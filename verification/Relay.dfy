/** One Relay: local admission, revocation updates and restart (crates/as-relay/src/main.rs). */
module Relay {
  import opened Base
  import opened RelayApi

  const MAX_CLOCK_SKEW_SECS: nat := 300

  datatype Denial =
    | EnrollmentRevoked | Missing | BadSignature | Malformed | WrongAudience | WrongEndpoint
    | NotYetValid | Expired | Revoked

  datatype Refusal =
    | Unauthorized | Invalid | OlderVersion | DifferentContent | OutsideTimeWindow | Overlapping
    | GenerationBackwards | NotPersisted

  /** What an accepted update asks the Relay to do. */
  datatype Verdict = Keep | Prune(table: Tombs) | Adopt(table: Tombs, delta: Tombs)

  datatype Session = Session(endpoint: Id, generation: nat)

  function RevokedThrough(index: Tombs, endpoint: Id, now: int): nat {
    if endpoint in index && index[endpoint].expiresAt > now then index[endpoint].generation else 0
  }

  function ValidateCredential(
    token: Option<SignedCredential>, endpoint: Id, authority: Id, audience: string, index: Tombs, now: int)
    : Result<(), Denial>
  {
    if token.None? then Err(Missing)
    else
      var c := token.value.credential;
      if !CredentialVerifies(token.value, authority) then Err(BadSignature)
      else if !ValidCredential(c) then Err(Malformed)
      else if c.audience != audience then Err(WrongAudience)
      else if c.endpoint != endpoint then Err(WrongEndpoint)
      else if c.issuedAt > SatAdd(now, MAX_CLOCK_SKEW_SECS) then Err(NotYetValid)
      else if c.expiresAt <= now then Err(Expired)
      else if c.generation <= RevokedThrough(index, endpoint, now) then Err(Revoked)
      else Ok(())
  }

  /** Everything a credential must be to open a session. */
  ghost predicate Admissible(
    token: Option<SignedCredential>, endpoint: Id, authority: Id, audience: string, index: Tombs, now: int)
  {
    && token.Some?
    && var c := token.value.credential;
       && token.value.signature == Signature(authority, c) && c.controlId == authority
       && c.protocolVersion == 3 && c.audience == audience != "" && c.endpoint == endpoint
       && c.issuedAt < c.expiresAt && c.issuedAt <= SatAdd(now, 300) && now < c.expiresAt
       && 0 < c.generation
       && (endpoint in index && index[endpoint].expiresAt > now ==> index[endpoint].generation < c.generation)
  }

  /** A refusal names something that is wrong with what was presented. */
  ghost predicate DenialIsTrue(
    denial: Denial, token: Option<SignedCredential>, endpoint: Id, authority: Id, audience: string, index: Tombs,
    now: int)
  {
    if denial.Missing? || token.None? then denial.Missing? && token.None?
    else
      var c := token.value.credential;
      match denial
      case BadSignature => token.value.signature != Signature(authority, c) || c.controlId != authority
      case Malformed => c.protocolVersion != 3 || c.audience == "" || c.generation == 0 || c.expiresAt <= c.issuedAt
      case WrongAudience => c.audience != audience
      case WrongEndpoint => c.endpoint != endpoint
      case NotYetValid => c.issuedAt > SatAdd(now, 300)
      case Expired => c.expiresAt <= now
      case Revoked =>
        endpoint in index && index[endpoint].expiresAt > now && c.generation <= index[endpoint].generation
      case _ => false
  }

  lemma AdmittedExactly(
    token: Option<SignedCredential>, endpoint: Id, authority: Id, audience: string, index: Tombs, now: int)
    ensures var r := ValidateCredential(token, endpoint, authority, audience, index, now);
            && (r.Ok? <==> Admissible(token, endpoint, authority, audience, index, now))
            && (r.Err? ==> DenialIsTrue(r.error, token, endpoint, authority, audience, index, now))
  {}

  function ValidateRevocations(u: RevocationUpdate, audience: string): Result<Tombs, Refusal> {
    if !ValidUpdate(u) || u.audience != audience then Err(Invalid)
    else if |Table(u.revocations)| != |u.revocations| then Err(Invalid)
    else Ok(Table(u.revocations))
  }

  /** The rows of a table that still matter at `now`. */
  function Live(t: Tombs, now: int): Tombs {
    map k | k in t && t[k].expiresAt > now :: t[k]
  }

  predicate GoesBackwards(held: Tombs, delta: Tombs, now: int) {
    exists k | k in delta && k in Live(held, now) :: delta[k].generation < held[k].generation
  }

  predicate InTable(t: Tombs, version: nat) {
    forall k | k in t :: InRange(t[k], version)
  }

  /** The decision of `apply_revocation_update`, branch by branch. */
  function Judge(authority: Id, audience: string, current: RevocationUpdate, signed: SignedUpdate, now: int)
    : Result<Verdict, Refusal>
  {
    var u := signed.update;
    var held := Table(current.revocations);
    if !UpdateVerifies(signed, authority) then Err(Unauthorized)
    else if ValidateRevocations(u, audience).Err? then Err(Invalid)
    else if u.version < current.version then Err(OlderVersion)
    else if u.version == current.version then
      if exists r | r in u.revocations :: r !in current.revocations then Err(DifferentContent)
      else if exists r | r in current.revocations :: r.tomb.expiresAt <= now then Ok(Prune(Live(held, now)))
      else Ok(Keep)
    else if Abs(now - u.issuedAt) > MAX_CLOCK_SKEW_SECS then Err(OutsideTimeWindow)
    else if exists r | r in u.revocations :: r.tomb.revision <= current.version then Err(Overlapping)
    else
      var delta := Table(u.revocations);
      if GoesBackwards(held, delta, now) then Err(GenerationBackwards)
      else if !InTable(Live(held, now) + delta, u.version) then Err(Invalid)
      else Ok(Adopt(Live(held, now) + delta, delta))
  }

  /** What an update must be for a Relay that serves `current` to accept it. */
  ghost predicate Acceptable(
    authority: Id, audience: string, current: RevocationUpdate, signed: SignedUpdate, now: int)
  {
    var u, held := signed.update, Table(current.revocations);
    && signed.signature == Signature(authority, u)
    && u.protocolVersion == 3 && u.audience == audience != "" && Distinct(u.revocations)
    && (forall i | 0 <= i < |u.revocations| ::
          0 < u.revocations[i].tomb.generation && 0 < u.revocations[i].tomb.revision <= u.version)
    && if u.version == current.version then forall r | r in u.revocations :: r in current.revocations
       else
         && u.version > current.version && -300 <= now - u.issuedAt <= 300
         && forall r | r in u.revocations ::
              && r.tomb.revision > current.version
              && (r.endpoint in held && held[r.endpoint].expiresAt > now ==>
                    held[r.endpoint].generation <= r.tomb.generation)
  }

  lemma {:induction false} TableHolds(rs: seq<Revocation>, r: Revocation)
    requires Distinct(rs) && r in rs
    ensures r.endpoint in Table(rs) && Table(rs)[r.endpoint] == r.tomb
  {
    TableRows(rs);
    var i :| 0 <= i < |rs| && rs[i] == r;
  }

  lemma BackwardsInList(held: Tombs, rs: seq<Revocation>, now: int)
    requires Distinct(rs)
    ensures GoesBackwards(held, Table(rs), now) <==>
            exists r | r in rs ::
              r.endpoint in held && held[r.endpoint].expiresAt > now && r.tomb.generation < held[r.endpoint].generation
  {
    TableRows(rs);
    forall r | r in rs ensures r.endpoint in Table(rs) && Table(rs)[r.endpoint] == r.tomb { TableHolds(rs, r); }
  }

  lemma MergeIsInTable(current: RevocationUpdate, u: RevocationUpdate, audience: string, now: int)
    requires ValidateRevocations(current, audience).Ok? && ValidateRevocations(u, audience).Ok?
    requires u.version >= current.version
    ensures InTable(Live(Table(current.revocations), now) + Table(u.revocations), u.version)
  {
    TableRows(current.revocations);
    TableRows(u.revocations);
  }

  lemma ValidatedExactly(u: RevocationUpdate, audience: string)
    ensures ValidateRevocations(u, audience).Ok? <==>
              && u.protocolVersion == 3 && u.audience == audience != "" && Distinct(u.revocations)
              && forall i | 0 <= i < |u.revocations| ::
                   0 < u.revocations[i].tomb.generation && 0 < u.revocations[i].tomb.revision <= u.version
    ensures ValidateRevocations(u, audience).Ok? ==> ValidateRevocations(u, audience).value == Table(u.revocations)
  {
    SizeDetectsDuplicates(u.revocations);
  }

  /** On a state that validates, the branches accept exactly such updates. */
  lemma AcceptedExactly(authority: Id, audience: string, current: RevocationUpdate, signed: SignedUpdate, now: int)
    requires ValidateRevocations(current, audience).Ok?
    ensures Judge(authority, audience, current, signed, now).Ok? <==>
            Acceptable(authority, audience, current, signed, now)
  {
    var u := signed.update;
    ValidatedExactly(u, audience);
    if ValidateRevocations(u, audience).Ok? {
      BackwardsInList(Table(current.revocations), u.revocations, now);
      if u.version > current.version { MergeIsInTable(current, u, audience, now); }
    }
  }

  /** From `now` on, a newer update replaces what is said about the endpoints it names, and nothing else changes. */
  ghost predicate Replaces(before: Tombs, version: nat, u: RevocationUpdate, after: Tombs, now: int) {
    forall e, t | t >= now ::
      RevokedThrough(after, e, t) ==
      RevokedThrough(if u.version > version && e in Table(u.revocations) then Table(u.revocations) else before, e, t)
  }

  lemma AcceptedReplaces(authority: Id, audience: string, current: RevocationUpdate, signed: SignedUpdate, now: int)
    ensures var held := Table(current.revocations);
            match Judge(authority, audience, current, signed, now)
            case Ok(Keep) => Replaces(held, current.version, signed.update, held, now)
            case Ok(Prune(table)) => Replaces(held, current.version, signed.update, table, now)
            case Ok(Adopt(table, _)) => Replaces(held, current.version, signed.update, table, now)
            case Err(_) => true
  {}

  /** The update triggers a disconnect exactly for entries that raise the effective generation. */
  predicate Disconnects(index: Tombs, delta: Tombs, endpoint: Id, at: int) {
    endpoint in delta && delta[endpoint].expiresAt > at
        && RevokedThrough(index, endpoint, at) < delta[endpoint].generation
  }

  function Survivors(sessions: set<Session>, index: Tombs, delta: Tombs, at: int): set<Session> {
    set s | s in sessions && !Disconnects(index, delta, s.endpoint, at)
  }

  /** The effective generation of an endpoint rises from one table to the next. */
  predicate Rises(before: Tombs, after: Tombs, endpoint: Id, at: int) {
    RevokedThrough(after, endpoint, at) > RevokedThrough(before, endpoint, at)
  }

  /** Merging a delta cuts exactly the sessions of endpoints whose effective generation it raises. */
  lemma CutExactly(sessions: set<Session>, index: Tombs, delta: Tombs, at: int)
    ensures Survivors(sessions, index, delta, at) ==
            set x | x in sessions && !Rises(index, Live(index, at) + delta, x.endpoint, at)
  {
    forall e ensures Disconnects(index, delta, e, at) <==> Rises(index, Live(index, at) + delta, e, at) {}
  }

  lemma JudgedCutsExactly(
    authority: Id, audience: string, current: RevocationUpdate, sessions: set<Session>, signed: SignedUpdate, now: int)
    ensures var held := Table(current.revocations);
            match Judge(authority, audience, current, signed, now)
            case Ok(Prune(table)) => forall e :: !Rises(held, table, e, now)
            case Ok(Adopt(table, delta)) =>
              Survivors(sessions, held, delta, now) == set x | x in sessions && !Rises(held, table, x.endpoint, now)
            case _ => true
  {
    CutExactly(sessions, Table(current.revocations), Table(signed.update.revocations), now);
  }

  /** No session runs under a generation that an unexpired tombstone covers. */
  predicate SessionsSafe(sessions: set<Session>, index: Tombs, now: int) {
    forall s | s in sessions :: s.generation > RevokedThrough(index, s.endpoint, now)
  }

  /** The first-run state, or the stored one. */
  function StartingState(stored: Option<RevocationUpdate>, audience: string, now: int): RevocationUpdate {
    if stored.Some? then stored.value else RevocationUpdate(PROTOCOL_VERSION, audience, 0, now, [])
  }

  /** The characters `str::trim` strips: Unicode's White_Space property. */
  predicate IsSpace(c: char) {
    var n := c as int;
    || 0x09 <= n <= 0x0D || n == 0x20 || n == 0x85 || n == 0xA0 || n == 0x1680 || 0x2000 <= n <= 0x200A
    || n == 0x2028 || n == 0x2029 || n == 0x202F || n == 0x205F || n == 0x3000
  }

  predicate IsBlank(s: string) { forall c | c in s :: IsSpace(c) }

  /** The 25 code points of Unicode's White_Space property. */
  const SPACES: set<int> := {
    0x09, 0x0A, 0x0B, 0x0C, 0x0D, 0x20, 0x85, 0xA0, 0x1680, 0x2000, 0x2001, 0x2002, 0x2003, 0x2004, 0x2005, 0x2006,
    0x2007, 0x2008, 0x2009, 0x200A, 0x2028, 0x2029, 0x202F, 0x205F, 0x3000}

  lemma BlankExactly(s: string)
    ensures IsBlank(s) <==> forall i | 0 <= i < |s| :: s[i] as int in SPACES
  {
    forall i | 0 <= i < |s| ensures IsSpace(s[i]) <==> s[i] as int in SPACES {}
    if IsBlank(s) {
      forall i | 0 <= i < |s| ensures s[i] as int in SPACES { assert s[i] in s; }
    }
  }

  method ListOf(t: Tombs) returns (order: seq<Id>)
    ensures Enumerates(order, t.Keys)
  {
    order := [];
    var todo := t.Keys;
    while todo != {}
      invariant todo <= t.Keys && Enumerates(order, t.Keys - todo)
    {
      var k :| k in todo;
      ListedOne(order, t.Keys - todo, k);
      assert t.Keys - (todo - {k}) == (t.Keys - todo) + {k};
      order, todo := order + [k], todo - {k};
    }
  }

  lemma ListedTableValidates(order: seq<Id>, t: Tombs, u: RevocationUpdate, audience: string)
    requires Enumerates(order, t.Keys) && InTable(t, u.version)
    requires u.protocolVersion == PROTOCOL_VERSION && u.audience == audience != ""
    ensures ValidateRevocations(u.(revocations := Wire(order, t)), audience) == Ok(t)
  {
    TableOfWire(order, t);
    SizeDetectsDuplicates(Wire(order, t));
  }

  class Server {
    const authority: Id
    const audience: string
    var current: RevocationUpdate
    var index: Tombs
    var disk: RevocationUpdate
    var sessions: set<Session>
    var enrollmentRevoked: bool
    var marker: bool

    /** The served state is the persisted state, and both would pass validation on a restart. */
    ghost predicate Valid()
      reads this
    {
      && ValidateRevocations(current, audience) == Ok(index)
      && disk == current
    }

    constructor (authority: Id, audience: string, start: RevocationUpdate)
      requires ValidateRevocations(start, audience).Ok?
      ensures Valid() && this.authority == authority && this.audience == audience
      ensures current == start && sessions == {} && !enrollmentRevoked && !marker
    {
      this.authority, this.audience := authority, audience;
      current, disk, index := start, start, Table(start.revocations);
      sessions, enrollmentRevoked, marker := {}, false, false;
    }

    /** Startup refuses a revoked enrollment and a state file that does not validate. */
    static method Start(
      authority: Id, audience: string, marker: bool, stored: Option<RevocationUpdate>, now: int)
      returns (server: Server?)
      ensures server == null <==> marker || IsBlank(audience) ||
                                  ValidateRevocations(StartingState(stored, audience, now), audience).Err?
      ensures server != null ==>
              fresh(server) && server.Valid() && server.current == StartingState(stored, audience, now)
      ensures server != null && stored.None? ==> server.current.version == 0 && server.index == map[]
      ensures server != null ==> server.sessions == {} && !server.enrollmentRevoked && !server.marker
      ensures server != null ==> server.authority == authority && server.audience == audience
    {
      var start := StartingState(stored, audience, now);
      if marker || IsBlank(audience) || ValidateRevocations(start, audience).Err? {
        return null;
      }
      server := new Server(authority, audience, start);
    }

    method OnConnect(token: Option<SignedCredential>, endpoint: Id, now: int) returns (r: Result<(), Denial>)
      modifies this`sessions
      ensures r.Ok? <==> !enrollmentRevoked && Admissible(token, endpoint, authority, audience, index, now)
      ensures enrollmentRevoked ==> r == Err(EnrollmentRevoked)
      ensures r.Err? && !enrollmentRevoked ==>
                DenialIsTrue(r.error, token, endpoint, authority, audience, index, now)
      ensures r == if enrollmentRevoked then Err(EnrollmentRevoked)
                   else ValidateCredential(token, endpoint, authority, audience, index, now)
      ensures sessions == old(sessions) +
                          if r.Ok? then {Session(endpoint, token.value.credential.generation)} else {}
      ensures SessionsSafe(old(sessions), index, now) ==> SessionsSafe(sessions, index, now)
    {
      if enrollmentRevoked { return Err(EnrollmentRevoked); }
      r := ValidateCredential(token, endpoint, authority, audience, index, now);
      AdmittedExactly(token, endpoint, authority, audience, index, now);
      if r.Ok? {
        sessions := sessions + {Session(endpoint, token.value.credential.generation)};
      }
    }

    /** `writes` is the outcome of storing the marker file. */
    method RevokeAll(writes: bool)
      modifies this`enrollmentRevoked, this`marker, this`sessions
      ensures enrollmentRevoked && sessions == {} && marker == (old(marker) || writes)
    {
      enrollmentRevoked := true;
      if writes { marker := true; }
      sessions := {};
    }

    /** A restart in the same directory: a marked Relay stays down, any other serves what it had stored. */
    method Restart(now: int) returns (next: Server?)
      requires Valid()
      ensures next == null <==> marker || IsBlank(audience)
      ensures next != null ==> fresh(next) && next.Valid() && next.current == current && next.index == index
      ensures next != null ==> next.sessions == {} && !next.enrollmentRevoked
    {
      next := Start(authority, audience, marker, Some(disk), now);
    }

    /** The merge loop: later entries replace earlier ones, unless a generation would move backwards. */
    method Merge(rs: seq<Revocation>, now: int) returns (r: Option<Tombs>)
      requires Distinct(rs)
      ensures r.None? <==> GoesBackwards(Table(current.revocations), Table(rs), now)
      ensures r.Some? ==> r.value == Live(Table(current.revocations), now) + Table(rs)
    {
      var held := Live(Table(current.revocations), now);
      var merged := held;
      for i := 0 to |rs|
        invariant merged == held + Table(rs[..i])
        invariant !exists k | k in Table(rs[..i]) && k in held :: Table(rs[..i])[k].generation < held[k].generation
      {
        TablePrefix(rs, i);
        var e := rs[i].endpoint;
        if e in merged && rs[i].tomb.generation < merged[e].generation {
          return None;
        }
        merged := merged[e := rs[i].tomb];
      }
      assert rs[..|rs|] == rs;
      return Some(merged);
    }

    method DisconnectRevoked(oldIndex: Tombs, delta: Tombs, at: int)
      modifies this`sessions
      ensures sessions == Survivors(old(sessions), oldIndex, delta, at)
      ensures sessions == set x | x in old(sessions) && !Rises(oldIndex, Live(oldIndex, at) + delta, x.endpoint, at)
    {
      CutExactly(sessions, oldIndex, delta, at);
      var todo := delta.Keys;
      while todo != {}
        invariant todo <= delta.Keys
        invariant sessions == set s | s in old(sessions) &&
                                      (s.endpoint in todo || !Disconnects(oldIndex, delta, s.endpoint, at))
      {
        var endpoint :| endpoint in todo;
        if delta[endpoint].expiresAt > at && RevokedThrough(oldIndex, endpoint, at) < delta[endpoint].generation {
          sessions := set s | s in sessions && s.endpoint != endpoint;
        }
        todo := todo - {endpoint};
      }
    }

    /** Replace the state: persist first, then activate the index, cut sessions, and publish. */
    method Install(next: RevocationUpdate, table: Tombs, delta: Tombs, at: int)
      requires ValidateRevocations(next, audience) == Ok(table)
      modifies this`current, this`index, this`disk, this`sessions
      ensures Valid() && current == next && index == table
      ensures sessions == Survivors(old(sessions), old(index), delta, at)
    {
      disk := next;
      var oldIndex := index;
      index := table;
      DisconnectRevoked(oldIndex, delta, at);
      current := next;
    }

    /** A repeated version only forgets what has expired. */
    method DropExpired(now: int)
      requires Valid()
      modifies this`current, this`index, this`disk
      ensures Valid() && index == Live(old(index), now)
      ensures current.version == old(current.version)
    {
      var pruned := Live(index, now);
      var order := ListOf(pruned);
      TableRows(current.revocations);
      ListedTableValidates(order, pruned, current, audience);
      current := current.(revocations := Wire(order, pruned));
      disk, index := current, pruned;
    }

    /** Branch by branch; `persists` is the outcome of writing the state file. */
    method ApplyJudged(signed: SignedUpdate, now: int, persists: bool)
      returns (r: Result<nat, Refusal>)
      requires Valid()
      modifies this`current, this`index, this`disk, this`sessions
      ensures Valid()
      ensures r.Ok? ==> r.value == current.version == signed.update.version
      ensures match Judge(authority, audience, old(current), signed, now)
              case Err(e) => r == Err(e)
              case Ok(Keep) => r.Ok? && current == old(current) && sessions == old(sessions)
              case Ok(Prune(t)) =>
                (if persists then r.Ok? && index == t else r == Err(NotPersisted)) && sessions == old(sessions)
              case Ok(Adopt(t, delta)) =>
                if persists then
                  && r.Ok? && index == t && current == signed.update.(revocations := current.revocations)
                  && sessions == Survivors(old(sessions), old(index), delta, now)
                else r == Err(NotPersisted)
      ensures r.Err? ==> current == old(current) && index == old(index) && sessions == old(sessions)
    {
      var u := signed.update;
      if !UpdateVerifies(signed, authority) { return Err(Unauthorized); }
      var delta := ValidateRevocations(u, audience);
      if delta.Err? { return Err(Invalid); }
      if u.version < current.version { return Err(OlderVersion); }
      if u.version == current.version {
        if exists r | r in u.revocations :: r !in current.revocations { return Err(DifferentContent); }
        if exists r | r in current.revocations :: r.tomb.expiresAt <= now {
          if !persists { return Err(NotPersisted); }
          DropExpired(now);
        }
        return Ok(current.version);
      }
      if Abs(now - u.issuedAt) > MAX_CLOCK_SKEW_SECS { return Err(OutsideTimeWindow); }
      if exists r | r in u.revocations :: r.tomb.revision <= current.version { return Err(Overlapping); }
      SizeDetectsDuplicates(u.revocations);
      var merged := Merge(u.revocations, now);
      if merged.None? { return Err(GenerationBackwards); }
      if !InTable(merged.value, u.version) { return Err(Invalid); }
      if !persists { return Err(NotPersisted); }
      var order := ListOf(merged.value);
      ListedTableValidates(order, merged.value, u, audience);
      Install(u.(revocations := Wire(order, merged.value)), merged.value, delta.value, now);
      return Ok(current.version);
    }

    /**
     * An acceptable update, once stored, replaces what was said about the endpoints it names and cuts exactly the
     * sessions of those whose effective generation rises; anything else changes nothing.
     */
    method ApplyRevocationUpdate(signed: SignedUpdate, now: int, persists: bool)
      returns (r: Result<nat, Refusal>)
      requires Valid()
      modifies this`current, this`index, this`disk, this`sessions
      ensures Valid()
      ensures r.Ok? ==> r.value == current.version == signed.update.version
      ensures r.Err? ==> current == old(current) && index == old(index)
      ensures r.Ok? ==> Acceptable(authority, audience, old(current), signed, now)
      ensures Acceptable(authority, audience, old(current), signed, now) && persists ==> r.Ok?
      ensures r.Ok? ==> Replaces(old(index), old(current.version), signed.update, index, now)
      ensures sessions == set x | x in old(sessions) && !Rises(old(index), index, x.endpoint, now)
    {
      AcceptedExactly(authority, audience, current, signed, now);
      AcceptedReplaces(authority, audience, current, signed, now);
      JudgedCutsExactly(authority, audience, current, sessions, signed, now);
      r := ApplyJudged(signed, now, persists);
    }
  }
}
