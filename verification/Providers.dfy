/**
 The two target shapes. FC3 stores the certificate itself, is compared by fingerprint, and is written
 by read-modify-write; OSS stores a reference to the certificate in CAS and is compared by it. The
 cloud follows pkg/aliyun/fake/fc3.go and fake/oss.go, seen through one set of credentials.
 */
module Providers {
  import opened Wrappers
  import opened Text
  import opened Pki
  import opened Protocols

  datatype Kind = FC3 | OSS

  datatype Code = TargetNotFound | Auth | Throttled | Transient | Permanent | Crash

  /** What a failing call may claim: never that the target is not there, if it is. */
  type Injected = c: Code | c != TargetNotFound witness Transient

  datatype Fault = Healthy | FailFirst(code: Injected) | CommitThenLose(code: Injected)

  function Failed(f: Fault): Option<Code> {
    if f.Healthy? then None else Some(f.code)
  }

  /** The target as the cloud stores it; echo is all that this project passes through unread. */
  datatype Site = Site(protocol: string, certName: string, pem: Pem, certRef: string, echo: int)

  datatype SiteMove = Put(account: string, site: Site) | Remove(account: string)

  datatype Turn = Turn(moves: seq<SiteMove>, fault: Fault, silent: bool)

  const QUIET := Turn([], Healthy, false)

  /** account is whom the credentials speak for; external counts what others did to the target, writes
      what we did. */
  datatype State = State(account: string, sites: map<string, Site>, external: nat, writes: nat)

  function Here(s: State): Option<Site> {
    if s.account in s.sites then Some(s.sites[s.account]) else None
  }

  /** One write of ours takes effect. */
  function WithSite(s: State, site: Site): State {
    s.(sites := s.sites[s.account := site], writes := s.writes + 1)
  }

  function Moved(s: State, m: SiteMove): State {
    match m
    case Put(account, site) => s.(sites := s.sites[account := site], external := s.external + 1)
    case Remove(account) => s.(sites := s.sites - {account}, external := s.external + 1)
  }

  function AllMoved(s: State, moves: seq<SiteMove>): State
    decreases moves
  {
    if moves == [] then s else AllMoved(Moved(s, moves[0]), moves[1..])
  }

  /** Whatever others do is counted, and does not change whom the credentials speak for. */
  lemma {:induction false} MovesAreCounted(s: State, moves: seq<SiteMove>)
    ensures var t := AllMoved(s, moves);
            && t.account == s.account && t.writes == s.writes && t.external == s.external + |moves|
            && (moves == [] ==> t == s)
    decreases moves
  {
    if moves != [] { MovesAreCounted(Moved(s, moves[0]), moves[1..]); }
  }

  datatype Material = Material(
    fingerprint: string, pem: Pem, casName: string, certId: Option<nat>, region: string, names: seq<string>)

  function Digit(d: nat): char
    requires d < 10
  {
    ('0' as int + d) as char
  }

  function Decimal(n: nat): (s: string)
    ensures s != "" && Free(s, '-')
  {
    if n < 10 then [Digit(n)] else Decimal(n / 10) + [Digit(n % 10)]
  }

  /** The digits are the decimal ones, most significant first. */
  function ReadDecimal(s: string): int {
    if s == "" then 0 else 10 * ReadDecimal(s[..|s| - 1]) + (s[|s| - 1] as int - '0' as int)
  }

  lemma {:induction false} DecimalReadsBack(n: nat)
    ensures ReadDecimal(Decimal(n)) == n && forall i :: 0 <= i < |Decimal(n)| ==> '0' <= Decimal(n)[i] <= '9'
  {
    if n >= 10 {
      DecimalReadsBack(n / 10);
      assert Decimal(n)[..|Decimal(n)| - 1] == Decimal(n / 10);
    }
  }

  /** How a target refers to a certificate in CAS. */
  function CertRef(certId: Option<nat>, region: string): string {
    if certId.None? || region == "" then "" else Decimal(certId.value) + "-" + region
  }

  lemma {:induction false} DecimalInjective(m: nat, n: nat)
    requires Decimal(m) == Decimal(n)
    ensures m == n
  {
    var a, b := Decimal(m), Decimal(n);
    assert a[|a| - 1] == Digit(m % 10) && b[|b| - 1] == Digit(n % 10);
    assert m >= 10 ==> a[..|a| - 1] == Decimal(m / 10);
    assert n >= 10 ==> b[..|b| - 1] == Decimal(n / 10);
    if m >= 10 && n >= 10 { DecimalInjective(m / 10, n / 10); }
  }

  /** A reference names one certificate of one region, and is empty exactly when there is none to name. */
  lemma CertRefInjective(i: Option<nat>, r: string, j: Option<nat>, q: string)
    ensures CertRef(i, r) == "" <==> i.None? || r == ""
    ensures CertRef(i, r) == CertRef(j, q) != "" ==> i == j && r == q
  {
    if CertRef(i, r) == CertRef(j, q) != "" {
      SplitAfter(Decimal(i.value), r, '-');
      SplitAfter(Decimal(j.value), q, '-');
      JoinSplit(r, '-');
      JoinSplit(q, '-');
      var a, b := [Decimal(i.value)] + Split(r, '-'), [Decimal(j.value)] + Split(q, '-');
      assert a == b;
      assert a[0] == b[0] && a[1..] == Split(r, '-') && b[1..] == Split(q, '-');
      DecimalInjective(i.value, j.value);
    }
  }

  datatype Observed = Observed(fingerprint: string, certRef: string, protocol: string, account: string)

  /** A stored certificate that cannot be parsed counts as none: it is overwritten, not reported. */
  function FingerprintOf(pem: Pem): string {
    var fp := LeafFingerprint(pem);
    if fp.None? then "" else fp.value
  }

  function View(kind: Kind, site: Site, account: string): Observed {
    match kind
    case FC3 => Observed(FingerprintOf(site.pem), "", site.protocol, account)
    case OSS => Observed("", site.certRef, "", account)
  }

  /** What is on the target, in the terms in which this kind is compared. */
  function Current(kind: Kind, o: Observed): string {
    if kind.FC3? then o.fingerprint else o.certRef
  }

  function Wanted(kind: Kind, m: Material): string {
    if kind.FC3? then m.fingerprint else CertRef(m.certId, m.region)
  }

  datatype Update = Update(protocol: string, echo: int, cert: Option<(string, Pem)>, clear: bool)

  function Updated(site: Site, in_: Update): Site {
    var s := site.(protocol := in_.protocol, echo := in_.echo);
    if in_.clear then s.(certName := "", pem := [])
    else if in_.cert.Some? then s.(certName := in_.cert.value.0, pem := in_.cert.value.1)
    else s
  }

  function First(turns: seq<Turn>): Turn {
    if turns == [] then QUIET else turns[0]
  }

  function Rest(turns: seq<Turn>): seq<Turn> {
    if turns == [] then [] else turns[1..]
  }

  /** How often others will yet touch the target. */
  function MovesIn(turns: seq<Turn>): nat {
    if turns == [] then 0 else |turns[0].moves| + MovesIn(turns[1..])
  }

  /** What is left of a queue. */
  predicate IsRest(queue: seq<Turn>, rest: seq<Turn>) {
    |rest| <= |queue| && rest == queue[|queue| - |rest|..]
  }

  lemma RestOfAll(turns: seq<Turn>)
    ensures IsRest(turns, turns)
  {
  }

  lemma RestOfRest(a: seq<Turn>, b: seq<Turn>, c: seq<Turn>)
    requires IsRest(a, b) && IsRest(b, c)
    ensures IsRest(a, c)
  {
  }

  /** No call fails, nobody else is at work, and the target tells whose it is. */
  predicate Smooth(turns: seq<Turn>) {
    forall i :: 0 <= i < |turns| ==> turns[i] == QUIET
  }

  /** The process does not die in a call. */
  predicate Surviving(turns: seq<Turn>) {
    forall i :: 0 <= i < |turns| ==> Failed(turns[i].fault) != Some(Crash)
  }

  lemma SurvivingRest(turns: seq<Turn>, rest: seq<Turn>)
    requires Surviving(turns) && IsRest(turns, rest)
    ensures Surviving(rest)
  {
  }

  lemma {:induction false} SmoothPassesNothing(turns: seq<Turn>, rest: seq<Turn>)
    requires Smooth(turns) && IsRest(turns, rest)
    ensures Smooth(rest) && MovesIn(rest) == 0
    decreases rest
  {
    if rest != [] { SmoothPassesNothing(turns, rest[1..]); }
  }

  lemma OneConsumed(turns: seq<Turn>)
    ensures IsRest(turns, Rest(turns)) && MovesIn(turns) == |First(turns).moves| + MovesIn(Rest(turns))
  {
  }

  lemma RestIsNoWorse(turns: seq<Turn>)
    ensures Smooth(turns) ==> Smooth(Rest(turns))
    ensures Surviving(turns) ==> Surviving(Rest(turns))
  {
  }

  /** A target that can be written to: an update is to name a protocol. */
  predicate Takes(kind: Kind, site: Option<Site>) {
    site.Some? && (kind.FC3? ==> site.value.protocol != "")
  }

  class Cloud {
    var state: State
    var turns: seq<Turn>

    constructor (account: string, sites: map<string, Site>, turns: seq<Turn>)
      ensures state == State(account, sites, 0, 0) && this.turns == turns
    {
      state, this.turns := State(account, sites, 0, 0), turns;
    }

    function Ahead(): State
      reads this
    {
      AllMoved(state, First(turns).moves)
    }

    method Arrive() returns (t: Turn)
      modifies this
      ensures state == old(Ahead()) && t == old(First(turns))
      ensures turns == old(Rest(turns))
    {
      t := First(turns);
      turns := if turns == [] then [] else turns[1..];
      ghost var start := state;
      var i := 0;
      while i < |t.moves|
        invariant 0 <= i <= |t.moves| && AllMoved(state, t.moves[i..]) == AllMoved(start, t.moves)
        invariant turns == old(Rest(turns))
      {
        state := Moved(state, t.moves[i]);
        assert t.moves[i..][1..] == t.moves[i + 1..];
        i := i + 1;
      }
    }

    /** The credentials are exchanged for another account's; to this Binding that is as good as an
        external change of its target. */
    method SwitchAccount(account: string)
      modifies this
      ensures state == old(state).(account := account, external := old(state).external + 1) && turns == old(turns)
    {
      state := state.(account := account, external := state.external + 1);
    }

    /** GetCustomDomain and GetCname. */
    method Get() returns (site: Option<Site>, account: string, err: Option<Code>)
      modifies this
      ensures state == old(Ahead()) && turns == old(Rest(turns))
      ensures err.None? ==> site == Here(state) && site.Some? && account in {"", state.account}
      ensures err == Some(TargetNotFound) ==> Here(state).None?
      ensures old(Smooth(turns)) && state.account in state.sites ==> err.None? && site == Some(state.sites[state.account])
      ensures old(Surviving(turns)) ==> err != Some(Crash)
      ensures old(Smooth(turns)) ==> account == state.account && err == if site.None? then Some(TargetNotFound) else None
      ensures var t := old(First(turns));
              && account == (if t.silent then "" else state.account)
              && err == if !t.fault.Healthy? then Some(t.fault.code)
                        else if state.account in state.sites then None else Some(TargetNotFound)
    {
      var t := Arrive();
      site, account := Here(state), if t.silent then "" else state.account;
      err := if !t.fault.Healthy? then Failed(t.fault) else if site.None? then Some(TargetNotFound) else None;
    }

    method UpdateCustomDomain(in_: Update) returns (err: Option<Code>, ghost committed: bool)
      modifies this
      ensures turns == old(Rest(turns))
      ensures err.None? ==> committed
      ensures err == Some(TargetNotFound) ==> Here(state).None?
      ensures !committed ==> state == old(Ahead())
      ensures committed ==>
                var s := old(Ahead());
                && Here(s).Some? && in_.protocol != ""
                && state == WithSite(s, Updated(Here(s).value, in_))
      ensures old(Surviving(turns)) ==> err != Some(Crash)
      ensures old(Smooth(turns) && Here(state).Some?) && in_.protocol != "" ==> err.None?
      ensures var f, s := old(First(turns)).fault, old(Ahead());
              && (committed <==> !f.FailFirst? && Here(s).Some? && in_.protocol != "")
              && err == if f.FailFirst? then Some(f.code) else if Here(s).None? then Some(TargetNotFound)
                        else if in_.protocol == "" then Some(Permanent) else Failed(f)
    {
      var t := Arrive();
      committed := false;
      if t.fault.FailFirst? { return Some(t.fault.code), false; }
      var site := Here(state);
      if site.None? { return Some(TargetNotFound), false; }
      if in_.protocol == "" { return Some(Permanent), false; }
      state := WithSite(state, Updated(site.value, in_));
      return Failed(t.fault), true;
    }

    /** PutCnameCert and DeleteCnameCert: only the certificate of the record changes. */
    method WriteCname(certRef: string) returns (err: Option<Code>, ghost committed: bool)
      modifies this
      ensures turns == old(Rest(turns))
      ensures err.None? ==> committed
      ensures err == Some(TargetNotFound) ==> Here(state).None?
      ensures !committed ==> state == old(Ahead())
      ensures committed ==>
                var s := old(Ahead());
                && Here(s).Some?
                && state == WithSite(s, Here(s).value.(certRef := certRef))
      ensures old(Surviving(turns)) ==> err != Some(Crash)
      ensures old(Smooth(turns) && Here(state).Some?) ==> err.None?
      ensures var f, s := old(First(turns)).fault, old(Ahead());
              && (committed <==> !f.FailFirst? && Here(s).Some?)
              && err == if f.FailFirst? then Some(f.code) else if Here(s).None? then Some(TargetNotFound) else Failed(f)
    {
      var t := Arrive();
      committed := false;
      if t.fault.FailFirst? { return Some(t.fault.code), false; }
      var site := Here(state);
      if site.None? { return Some(TargetNotFound), false; }
      state := WithSite(state, site.value.(certRef := certRef));
      return Failed(t.fault), true;
    }
  }

  /** Some turns have passed, and what others did in them, and nothing else, has been counted. */
  twostate predicate Passed(cloud: Cloud)
    reads cloud
  {
    && cloud.state.account == old(cloud.state.account) && IsRest(old(cloud.turns), cloud.turns)
    && cloud.state.external + MovesIn(cloud.turns) == old(cloud.state.external + MovesIn(cloud.turns))
    && cloud.state.external >= old(cloud.state.external)
  }

  /** Nothing happened to the target that is not counted. */
  twostate predicate OnlyCounted(cloud: Cloud)
    reads cloud
  {
    && Passed(cloud) && cloud.state.writes == old(cloud.state.writes)
    && (cloud.state.external == old(cloud.state.external) ==> cloud.state.sites == old(cloud.state.sites))
  }

  /** One write of ours has taken effect, or none; whatever else happened is counted. */
  twostate predicate OneWrite(cloud: Cloud, committed: bool)
    reads cloud
  {
    Passed(cloud) && cloud.state.writes == old(cloud.state.writes) + (if committed then 1 else 0)
  }

  lemma NothingMoves(cloud: Cloud)
    requires Smooth(cloud.turns)
    ensures cloud.Ahead() == cloud.state
  {
  }

  method Observe(kind: Kind, cloud: Cloud) returns (obs: Observed, err: Option<Code>)
    modifies cloud
    ensures OnlyCounted(cloud) && cloud.state == old(cloud.Ahead())
    ensures err == Some(TargetNotFound) ==> Here(cloud.state).None?
    ensures err.None? ==>
              Here(cloud.state).Some? && obs.account in {"", cloud.state.account} &&
              obs == View(kind, Here(cloud.state).value, obs.account)
    ensures err.None? ==>
              var site := Here(cloud.state).value;
              match kind
              case FC3 => obs.fingerprint == FingerprintOf(site.pem) && obs.certRef == "" && obs.protocol == site.protocol
              case OSS => obs.fingerprint == "" && obs.certRef == site.certRef && obs.protocol == ""
    ensures old(Surviving(cloud.turns)) ==> err != Some(Crash)
    ensures old(Smooth(cloud.turns)) ==>
              && cloud.state == old(cloud.state) && err == (if Here(cloud.state).None? then Some(TargetNotFound) else None)
              && (err.None? ==> obs.account == cloud.state.account)
  {
    MovesAreCounted(cloud.state, First(cloud.turns).moves);
    var site, account;
    site, account, err := cloud.Get();
    obs := Observed("", "", "", "");
    if err.Some? { return; }
    obs := View(kind, site.value, account);
  }

  /** The protocol only changes if HTTPS was asked for and is missing. */
  function Requested(protocol: string, ensureHTTPS: bool): string {
    if ensureHTTPS && !HasHTTPS(protocol) then BOTH else protocol
  }

  lemma RequestedSatisfies(protocol: string, ensureHTTPS: bool)
    ensures ensureHTTPS ==> HasHTTPS(Requested(protocol, ensureHTTPS))
  {
    WrittenProtocols();
  }

  lemma RequestedIsSomething(ensureHTTPS: bool)
    ensures forall p :: p != "" ==> Requested(p, ensureHTTPS) != ""
  {
  }

  lemma RequestedExact(p: string, ensureHTTPS: bool)
    ensures if ensureHTTPS && !HasHTTPS(p) then HasHTTPS(Requested(p, ensureHTTPS)) && HasHTTP(Requested(p, ensureHTTPS))
            else Requested(p, ensureHTTPS) == p
  {
    WrittenProtocols();
  }

  /** The site after one Apply from what was read. */
  function Applied(kind: Kind, read: Site, m: Material, ensureHTTPS: bool): Site {
    match kind
    case OSS => read.(certRef := CertRef(m.certId, m.region))
    case FC3 =>
      read.(protocol := Requested(read.protocol, ensureHTTPS),
            certName := m.casName, pem := m.pem)
  }

  /** Reads the whole target, replaces certificate and, if asked for and missing, the protocol, and writes
      everything else back as it was. */
  method ApplyFC3(cloud: Cloud, m: Material, ensureHTTPS: bool) returns (err: Option<Code>, ghost committed: bool)
    modifies cloud
    ensures OneWrite(cloud, committed)
    ensures err.None? ==> committed
    ensures !committed ==> OnlyCounted(cloud)
    ensures committed ==>
              && Here(cloud.state).Some?
              && Here(cloud.state).value.pem == m.pem && Here(cloud.state).value.certName == m.casName
              && (ensureHTTPS ==> HasHTTPS(Here(cloud.state).value.protocol))
    ensures committed && cloud.state.external == old(cloud.state.external) ==>
              Here(old(cloud.state)).Some? &&
              cloud.state == WithSite(old(cloud.state), Applied(FC3, Here(old(cloud.state)).value, m, ensureHTTPS))
    ensures committed && cloud.state.external == old(cloud.state.external) && Here(old(cloud.state)).Some? && Here(cloud.state).Some? ==>
              var before, after := Here(old(cloud.state)).value, Here(cloud.state).value;
              && after.echo == before.echo && after.certRef == before.certRef
              && (if ensureHTTPS && !HasHTTPS(before.protocol)
                  then HasHTTPS(after.protocol) && HasHTTP(after.protocol)
                  else after.protocol == before.protocol)
    ensures old(Surviving(cloud.turns)) ==> err != Some(Crash)
    ensures old(Smooth(cloud.turns) && Takes(FC3, Here(cloud.state))) && m.casName != "" ==> err.None?
    ensures m.casName == "" ==> err == Some(Permanent) && cloud.state == old(cloud.state) && cloud.turns == old(cloud.turns)
  {
    hide HasHTTPS, HasHTTP, AllMoved, Requested, Smooth, Surviving, IsRest, MovesIn, CertRef;
    committed := false;
    RestOfAll(cloud.turns);
    OneConsumed(cloud.turns);
    OneConsumed(Rest(cloud.turns));
    RestOfRest(cloud.turns, Rest(cloud.turns), Rest(Rest(cloud.turns)));
    RestIsNoWorse(cloud.turns);
    if Smooth(cloud.turns) { NothingMoves(cloud); }
    RequestedIsSomething(ensureHTTPS);
    if Here(cloud.state).Some? { RequestedExact(Here(cloud.state).value.protocol, ensureHTTPS); }
    if m.casName == "" { return Some(Permanent), false; }
    MovesAreCounted(cloud.state, First(cloud.turns).moves);
    var site, _, gerr := cloud.Get();
    if gerr.Some? { return gerr, false; }
    var protocol := Requested(site.value.protocol, ensureHTTPS);
    RequestedSatisfies(site.value.protocol, ensureHTTPS);
    MovesAreCounted(cloud.state, First(cloud.turns).moves);
    err, committed := cloud.UpdateCustomDomain(Update(protocol, site.value.echo, Some((m.casName, m.pem)), false));
  }

  method ApplyOSS(cloud: Cloud, m: Material) returns (err: Option<Code>, ghost committed: bool)
    modifies cloud
    ensures OneWrite(cloud, committed)
    ensures err.None? ==> committed
    ensures !committed ==> OnlyCounted(cloud)
    ensures committed ==> Here(cloud.state).Some? && Here(cloud.state).value.certRef == CertRef(m.certId, m.region) != ""
    ensures committed && cloud.state.external == old(cloud.state.external) && Here(old(cloud.state)).Some? && Here(cloud.state).Some? ==>
              Here(cloud.state).value == Here(old(cloud.state)).value.(certRef := CertRef(m.certId, m.region))
    ensures committed && cloud.state.external == old(cloud.state.external) ==>
              Here(old(cloud.state)).Some? &&
              cloud.state == WithSite(old(cloud.state), Applied(OSS, Here(old(cloud.state)).value, m, false))
    ensures old(Smooth(cloud.turns) && Takes(OSS, Here(cloud.state))) && CertRef(m.certId, m.region) != "" ==> err.None?
    ensures CertRef(m.certId, m.region) == "" ==> err == Some(Permanent) && cloud.state == old(cloud.state) && cloud.turns == old(cloud.turns)
    ensures old(Surviving(cloud.turns)) ==> err != Some(Crash)
  {
    committed := false;
    var ref := CertRef(m.certId, m.region);
    if ref == "" { return Some(Permanent), false; }
    MovesAreCounted(cloud.state, First(cloud.turns).moves);
    err, committed := cloud.WriteCname(ref);
  }

  /** Both shapes, in the terms of the generic layer. */
  method Apply(kind: Kind, cloud: Cloud, m: Material, ensureHTTPS: bool) returns (err: Option<Code>, ghost committed: bool)
    modifies cloud
    ensures OneWrite(cloud, committed)
    ensures err.None? ==> committed
    ensures !committed ==> OnlyCounted(cloud)
    ensures committed ==>
              Here(cloud.state).Some? &&
              var s := Here(cloud.state).value;
              if kind.FC3? then s.pem == m.pem && (ensureHTTPS ==> HasHTTPS(s.protocol))
              else s.certRef == CertRef(m.certId, m.region)
    ensures old(Surviving(cloud.turns)) ==> err != Some(Crash)
    ensures (old(Smooth(cloud.turns) && Takes(kind, Here(cloud.state))) && m.casName != "" &&
            (kind.OSS? ==> CertRef(m.certId, m.region) != "")) ==> err.None?
  {
    hide HasHTTPS, HasHTTP, CertRef, Requested, Smooth, Takes, Surviving, Applied, MovesIn, IsRest, AllMoved;
    if kind.FC3? {
      err, committed := ApplyFC3(cloud, m, ensureHTTPS);
    } else {
      err, committed := ApplyOSS(cloud, m);
    }
  }

  /** The site after a clean-up from what was read: a domain left with HTTPS alone would be unreachable. */
  function Cleared(kind: Kind, read: Site): Site {
    match kind
    case OSS => read.(certRef := "")
    case FC3 => read.(certName := "", pem := [], protocol := if IsHTTPSOnly(read.protocol) then HTTP else read.protocol)
  }

  method CleanupFC3(cloud: Cloud) returns (err: Option<Code>, ghost committed: bool)
    modifies cloud
    ensures OneWrite(cloud, committed)
    ensures !committed ==> OnlyCounted(cloud) && (err.None? ==> Here(cloud.state).None?)
    ensures committed ==>
              Here(cloud.state).Some? &&
              Current(FC3, View(FC3, Here(cloud.state).value, "")) == "" && !IsHTTPSOnly(Here(cloud.state).value.protocol)
    ensures committed && cloud.state.external == old(cloud.state.external) ==>
              Here(old(cloud.state)).Some? &&
              cloud.state == WithSite(old(cloud.state), Cleared(FC3, Here(old(cloud.state)).value))
    ensures committed && cloud.state.external == old(cloud.state.external) && Here(old(cloud.state)).Some? && Here(cloud.state).Some? ==>
              var before, after := Here(old(cloud.state)).value, Here(cloud.state).value;
              && after == before.(certName := "", pem := [], protocol := after.protocol)
              && (if HasHTTPS(before.protocol) && !HasHTTP(before.protocol)
                  then HasHTTP(after.protocol) && !HasHTTPS(after.protocol)
                  else after.protocol == before.protocol)
    ensures old(Surviving(cloud.turns)) ==> err != Some(Crash)
    ensures old(Smooth(cloud.turns) && Takes(FC3, Here(cloud.state))) ==> err.None?
  {
    hide IsHTTPSOnly, HasHTTPS, HasHTTP, AllMoved, FingerprintOf, Smooth, Surviving;
    RestIsNoWorse(cloud.turns);
    if Smooth(cloud.turns) { NothingMoves(cloud); }
    MovesAreCounted(cloud.state, First(cloud.turns).moves);
    committed := false;
    var site, _, gerr := cloud.Get();
    if gerr.Some? { return if gerr == Some(TargetNotFound) then None else gerr, false; }
    PlainHTTP();
    var protocol := if IsHTTPSOnly(site.value.protocol) then HTTP else site.value.protocol;
    MovesAreCounted(cloud.state, First(cloud.turns).moves);
    err, committed := cloud.UpdateCustomDomain(Update(protocol, site.value.echo, None, true));
    if err == Some(TargetNotFound) { err := None; }
  }

  method CleanupOSS(cloud: Cloud) returns (err: Option<Code>, ghost committed: bool)
    modifies cloud
    ensures OneWrite(cloud, committed)
    ensures !committed ==> OnlyCounted(cloud) && (err.None? ==> Here(cloud.state).None?)
    ensures committed ==>
              Here(cloud.state).Some? &&
              Current(OSS, View(OSS, Here(cloud.state).value, "")) == ""
    ensures committed && cloud.state.external == old(cloud.state.external) ==>
              Here(old(cloud.state)).Some? &&
              cloud.state == WithSite(old(cloud.state), Cleared(OSS, Here(old(cloud.state)).value))
    ensures committed && cloud.state.external == old(cloud.state.external) && Here(old(cloud.state)).Some? && Here(cloud.state).Some? ==>
              Here(cloud.state).value == Here(old(cloud.state)).value.(certRef := "")
    ensures old(Surviving(cloud.turns)) ==> err != Some(Crash)
    ensures old(Smooth(cloud.turns) && Takes(OSS, Here(cloud.state))) ==> err.None?
  {
    hide AllMoved;
    MovesAreCounted(cloud.state, First(cloud.turns).moves);
    err, committed := cloud.WriteCname("");
    if err == Some(TargetNotFound) { err := None; }
  }

  method Cleanup(kind: Kind, cloud: Cloud) returns (err: Option<Code>, ghost committed: bool)
    modifies cloud
    ensures OneWrite(cloud, committed)
    ensures !committed ==> OnlyCounted(cloud) && (err.None? ==> Here(cloud.state).None?)
    ensures committed ==>
              Here(cloud.state).Some? &&
              Current(kind, View(kind, Here(cloud.state).value, "")) == "" &&
              (kind.FC3? ==> !IsHTTPSOnly(Here(cloud.state).value.protocol))
    ensures committed && cloud.state.external == old(cloud.state.external) ==>
              Here(old(cloud.state)).Some? &&
              cloud.state == WithSite(old(cloud.state), Cleared(kind, Here(old(cloud.state)).value))
    ensures old(Surviving(cloud.turns)) ==> err != Some(Crash)
    ensures old(Smooth(cloud.turns) && Takes(kind, Here(cloud.state))) ==> err.None?
  {
    hide IsHTTPSOnly, AllMoved, MovesIn, IsRest, Cleared;
    if kind.FC3? { err, committed := CleanupFC3(cloud); } else { err, committed := CleanupOSS(cloud); }
  }

  lemma PlainHTTP()
    ensures !IsHTTPSOnly(HTTP) && HTTP != "" && FingerprintOf([]) == "" && HasHTTP(HTTP) && !HasHTTPS(HTTP)
    ensures forall p :: IsHTTPSOnly(p) <==> HasHTTPS(p) && !HasHTTP(p)
  {
    WrittenProtocols();
  }
}
