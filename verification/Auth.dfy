/** Which probe may overwrite a seat's stored authentication record.

    Records are already redacted. `norm` is the normalisation of repository origins, any function. */
module Auth {
  import opened Wrappers
  import opened Text

  datatype Field =
    | RunnerId | RunnerKind | Hostname | Username | Binary | Argv0 | EnvFingerprint | RepoRoot
    | OriginUrl | ExpectedOrigin | AgentId | TicketAgent | Lifecycle

  type Context = map<Field, string>
  type Norm = string -> string

  const REQUIRED := [RunnerId, RunnerKind, Hostname, Username, Binary, Argv0, EnvFingerprint, RepoRoot, OriginUrl,
                     ExpectedOrigin, AgentId, TicketAgent]
  const IDENTITY := [RunnerId, RunnerKind, Hostname, Username, Binary, Argv0, EnvFingerprint, RepoRoot, OriginUrl,
                     ExpectedOrigin, AgentId]
  const FENCE := [RunnerKind, Hostname, Username, Argv0, EnvFingerprint, RepoRoot, OriginUrl, ExpectedOrigin, AgentId]
  const KINDS := {"host", "sandbox", "container"}

  datatype AuthState =
    | Ready | LoginRequired | Expired | Quota | Network | Unavailable | Unsupported
    | Unknown(name: string)

  datatype Pause = Pause(paused: bool, retryModel: bool, retainQueue: bool, dedupeAlert: bool, resumeOnce: bool,
                         path: AuthState)

  datatype Alert = Alert(agent: string, state: AuthState, profile: string)

  /** `extra` holds the fields no decision reads. An absent context is the empty one. */
  datatype Record = Record(state: AuthState, authoritative: Option<bool>, context: Context, profileRef: Option<string>,
                           extra: map<string, string>, pause: Option<Pause>, alert: Option<Alert>)

  /** `valid`: the schema check of everything outside the context and the state passed. */
  datatype Probe = Probe(record: Record, valid: bool)

  function Get(c: Context, f: Field): string {
    if f in c then c[f] else ""
  }

  predicate Nonblank(s: string) {
    Trim(s) != ""
  }

  predicate SeatIdentity(enrolled: string, process: string) {
    Nonblank(enrolled) && Trim(enrolled) == Trim(process)
  }

  predicate Present(c: Context, f: Field) {
    Nonblank(Get(c, f))
  }

  predicate AllPresent(c: Context, fields: seq<Field>) {
    forall i :: 0 <= i < |fields| ==> Present(c, fields[i])
  }

  predicate Complete(norm: Norm, c: Context) {
    && AllPresent(c, REQUIRED)
    && Get(c, RunnerKind) in KINDS
    && norm(Get(c, OriginUrl)) != "" && norm(Get(c, OriginUrl)) == norm(Get(c, ExpectedOrigin))
    && SeatIdentity(Get(c, AgentId), Get(c, TicketAgent))
    && Get(c, Lifecycle) in {"", "persistent", "ephemeral"}
  }

  /** One field as identity compares it. */
  function Part(norm: Norm, c: Context, f: Field): string {
    Trim(if f == OriginUrl || f == ExpectedOrigin then norm(Get(c, f)) else Get(c, f))
  }

  function Parts(norm: Norm, c: Context, fields: seq<Field>): (r: seq<string>)
    ensures |r| == |fields| && forall i :: 0 <= i < |r| ==> r[i] == Part(norm, c, fields[i])
  {
    if fields == [] then [] else [Part(norm, c, fields[0])] + Parts(norm, c, fields[1..])
  }

  function Fingerprint(norm: Norm, c: Context): string {
    if Complete(norm, c) then JoinBars(Parts(norm, c, IDENTITY)) else ""
  }

  predicate ContextsMatch(norm: Norm, probe: Context, runner: Context) {
    && Complete(norm, probe) && Complete(norm, runner)
    && Fingerprint(norm, probe) != "" && Fingerprint(norm, probe) == Fingerprint(norm, runner)
  }

  predicate SamePart(norm: Norm, left: Context, right: Context, f: Field) {
    Part(norm, left, f) == Part(norm, right, f)
  }

  predicate SameOn(norm: Norm, left: Context, right: Context, fields: seq<Field>) {
    forall i :: 0 <= i < |fields| ==> SamePart(norm, left, right, fields[i])
  }

  /** The same seat; `Binary` and `RunnerId` are not compared. */
  predicate SeatFence(norm: Norm, left: Context, right: Context) {
    && Complete(norm, left) && Complete(norm, right)
    && SeatIdentity(Get(left, AgentId), Get(right, AgentId))
    && SameOn(norm, left, right, FENCE)
  }

  // ---- the loops ----

  method FieldsPresent(c: Context, fields: seq<Field>) returns (ok: bool)
    ensures ok == AllPresent(c, fields)
  {
    for i := 0 to |fields|
      invariant forall j :: 0 <= j < i ==> Present(c, fields[j])
    {
      if !Present(c, fields[i]) {
        return false;
      }
    }
    ok := true;
  }

  method ContextIsComplete(norm: Norm, c: Context) returns (ok: bool)
    ensures ok == Complete(norm, c)
  {
    var present := FieldsPresent(c, REQUIRED);
    ok := present
          && Get(c, RunnerKind) in KINDS
          && norm(Get(c, OriginUrl)) != "" && norm(Get(c, OriginUrl)) == norm(Get(c, ExpectedOrigin))
          && SeatIdentity(Get(c, AgentId), Get(c, TicketAgent))
          && Get(c, Lifecycle) in {"", "persistent", "ephemeral"};
  }

  method CollectParts(norm: Norm, c: Context, fields: seq<Field>) returns (parts: seq<string>)
    ensures parts == Parts(norm, c, fields)
  {
    parts := [];
    for i := 0 to |fields|
      invariant |parts| == i && forall j :: 0 <= j < i ==> parts[j] == Part(norm, c, fields[j])
    {
      parts := parts + [Part(norm, c, fields[i])];
    }
  }

  method ContextFingerprint(norm: Norm, c: Context) returns (joined: string)
    ensures joined == Fingerprint(norm, c)
  {
    var complete := ContextIsComplete(norm, c);
    if !complete {
      return "";
    }
    var parts := CollectParts(norm, c, IDENTITY);
    joined := JoinBars(parts);
  }

  method FieldsAgree(norm: Norm, left: Context, right: Context, fields: seq<Field>) returns (ok: bool)
    ensures ok == SameOn(norm, left, right, fields)
  {
    for i := 0 to |fields|
      invariant forall j :: 0 <= j < i ==> SamePart(norm, left, right, fields[j])
    {
      if !SamePart(norm, left, right, fields[i]) {
        return false;
      }
    }
    ok := true;
  }

  method SeatFenceMatches(norm: Norm, left: Context, right: Context) returns (ok: bool)
    ensures ok == SeatFence(norm, left, right)
  {
    var l := ContextIsComplete(norm, left);
    var r := ContextIsComplete(norm, right);
    if !l || !r || !SeatIdentity(Get(left, AgentId), Get(right, AgentId)) {
      return false;
    }
    ok := FieldsAgree(norm, left, right, FENCE);
  }

  // ---- what is compared ----

  /** Field by field: the texts agree stripped, the origins normalised. */
  predicate AgreeOn(norm: Norm, l: Context, r: Context, f: Field) {
    if f == OriginUrl || f == ExpectedOrigin then Trim(norm(Get(l, f))) == Trim(norm(Get(r, f)))
    else Trim(Get(l, f)) == Trim(Get(r, f))
  }

  /** Complete: nothing required is blank, the kind is a known one, the origin is the expected one, and the seat that
      runs is the seat enrolled. */
  lemma CompleteIff(norm: Norm, c: Context)
    ensures Complete(norm, c) <==>
      && (forall f :: f != Lifecycle ==> Trim(Get(c, f)) != "")
      && (Get(c, RunnerKind) == "host" || Get(c, RunnerKind) == "sandbox" || Get(c, RunnerKind) == "container")
      && norm(Get(c, OriginUrl)) == norm(Get(c, ExpectedOrigin)) != ""
      && Trim(Get(c, AgentId)) == Trim(Get(c, TicketAgent))
      && (Get(c, Lifecycle) == "" || Get(c, Lifecycle) == "persistent" || Get(c, Lifecycle) == "ephemeral")
  {
    PresentIff(c, REQUIRED);
    forall f ensures Listed(f, REQUIRED) <==> f != Lifecycle {
      RequiredLists(f);
    }
  }

  lemma PresentIff(c: Context, fields: seq<Field>)
    ensures AllPresent(c, fields) <==> forall f :: Listed(f, fields) ==> Trim(Get(c, f)) != ""
  {
    if AllPresent(c, fields) {
      forall f | Listed(f, fields) ensures Trim(Get(c, f)) != "" {
        var i :| 0 <= i < |fields| && fields[i] == f;
        assert Present(c, fields[i]);
      }
    } else {
      var i :| 0 <= i < |fields| && !Present(c, fields[i]);
      assert Listed(fields[i], fields);
    }
  }

  predicate Listed(f: Field, fields: seq<Field>) {
    exists i :: 0 <= i < |fields| && fields[i] == f
  }

  lemma RequiredLists(f: Field)
    ensures Listed(f, REQUIRED) <==> f != Lifecycle
    ensures Listed(f, IDENTITY) <==> f != Lifecycle && f != TicketAgent
    ensures Listed(f, FENCE) <==> f !in {Lifecycle, TicketAgent, RunnerId, Binary}
  {
    assert REQUIRED[0] == RunnerId && REQUIRED[1] == RunnerKind && REQUIRED[2] == Hostname && REQUIRED[3] == Username;
    assert REQUIRED[4] == Binary && REQUIRED[5] == Argv0 && REQUIRED[6] == EnvFingerprint && REQUIRED[7] == RepoRoot;
    assert REQUIRED[8] == OriginUrl && REQUIRED[9] == ExpectedOrigin && REQUIRED[10] == AgentId;
    assert REQUIRED[11] == TicketAgent;
    assert forall i :: 0 <= i < |IDENTITY| ==> IDENTITY[i] == REQUIRED[i];
    assert FENCE[0] == RunnerKind && FENCE[1] == Hostname && FENCE[2] == Username && FENCE[3] == Argv0;
    assert FENCE[4] == EnvFingerprint && FENCE[5] == RepoRoot && FENCE[6] == OriginUrl && FENCE[7] == ExpectedOrigin;
    assert FENCE[8] == AgentId;
  }

  /** Two contexts are the same seat iff both are complete and agree on everything but runner id, binary, ticket agent
      and lifecycle. */
  lemma SameSeatIff(norm: Norm, l: Context, r: Context)
    ensures SeatFence(norm, l, r) <==>
      && Complete(norm, l) && Complete(norm, r)
      && forall f :: f !in {Lifecycle, TicketAgent, RunnerId, Binary} ==> AgreeOn(norm, l, r, f)
  {
    FieldsAgreeIff(norm, l, r, FENCE);
    forall f ensures Listed(f, FENCE) <==> f !in {Lifecycle, TicketAgent, RunnerId, Binary} {
      RequiredLists(f);
    }
    if Complete(norm, l) && AgreeOn(norm, l, r, AgentId) {
      CompleteIff(norm, l);
    }
    assert AgentId !in {Lifecycle, TicketAgent, RunnerId, Binary};
  }

  lemma FieldsAgreeIff(norm: Norm, l: Context, r: Context, fields: seq<Field>)
    ensures SameOn(norm, l, r, fields) <==> forall f :: Listed(f, fields) ==> AgreeOn(norm, l, r, f)
  {
    if SameOn(norm, l, r, fields) {
      forall f | Listed(f, fields) ensures AgreeOn(norm, l, r, f) {
        var i :| 0 <= i < |fields| && fields[i] == f;
        assert SamePart(norm, l, r, fields[i]);
      }
    } else {
      var i :| 0 <= i < |fields| && !SamePart(norm, l, r, fields[i]);
      assert Listed(fields[i], fields);
    }
  }

  /** The identity fields: everything but ticket agent and lifecycle. */
  lemma SameIdentityIff(norm: Norm, l: Context, r: Context)
    ensures SameOn(norm, l, r, IDENTITY) <==>
      forall f :: f != Lifecycle && f != TicketAgent ==> AgreeOn(norm, l, r, f)
  {
    FieldsAgreeIff(norm, l, r, IDENTITY);
    forall f ensures Listed(f, IDENTITY) <==> f != Lifecycle && f != TicketAgent {
      RequiredLists(f);
    }
  }

  // ---- what a match means ----

  /** Cut at its loose bars, the text has a runner kind among its later pieces. */
  ghost predicate KindCut(s: string) {
    exists k, w :: w in KINDS && CutAt(s, k, w)
  }

  /** No other fields join to the same text: the runner id, which stands first and before the kind, hides no kind; any
      other field is firm. */
  ghost predicate FieldHeld(norm: Norm, c: Context, f: Field) {
    if f == RunnerId then !KindCut(Part(norm, c, f)) else Firm(Part(norm, c, f))
  }

  ghost predicate Anchored(norm: Norm, c: Context, fields: seq<Field>) {
    forall i :: 0 <= i < |fields| ==> FieldHeld(norm, c, fields[i])
  }

  /** A normalised origin is empty or holds something besides white space. */
  ghost predicate NormNonblank(norm: Norm) {
    forall s :: norm(s) != "" ==> Nonblank(norm(s))
  }

  lemma PartStripped(norm: Norm, c: Context, i: nat)
    requires NormNonblank(norm) && Complete(norm, c) && i < |IDENTITY|
    ensures Stripped(Part(norm, c, IDENTITY[i]))
  {
    assert IDENTITY[i] == REQUIRED[i] && Present(c, REQUIRED[i]);
    TrimIsTrimmed(Get(c, IDENTITY[i]));
    TrimIsTrimmed(norm(Get(c, IDENTITY[i])));
  }

  lemma KindTight(w: string)
    requires w in KINDS
    ensures Stripped(w) && Tight(w)
  {
    assert forall i :: 0 <= i < |w| ==> w[i] != '|';
  }

  lemma KindPart(norm: Norm, c: Context)
    requires Complete(norm, c)
    ensures Part(norm, c, RunnerKind) in KINDS && Tight(Part(norm, c, RunnerKind))
  {
    KindTight(Get(c, RunnerKind));
    TrimKeepsTrimmed(Get(c, RunnerKind));
  }

  lemma FirmTail(norm: Norm, c: Context, fields: seq<Field>)
    requires Anchored(norm, c, fields) && forall i :: 1 <= i < |fields| ==> fields[i] != RunnerId
    ensures forall i :: 1 <= i < |fields| ==> Firm(Parts(norm, c, fields)[i])
  {
    forall i | 1 <= i < |fields| ensures Firm(Parts(norm, c, fields)[i]) {
      assert FieldHeld(norm, c, fields[i]);
    }
  }

  lemma IdentityStripped(norm: Norm, c: Context)
    requires NormNonblank(norm) && Complete(norm, c)
    ensures AllStripped(Parts(norm, c, IDENTITY))
  {
    forall i | 0 <= i < |IDENTITY| ensures Stripped(Parts(norm, c, IDENTITY)[i]) {
      PartStripped(norm, c, i);
    }
  }

  /** The runner id comes first and only there, the kind second. */
  predicate LedById(fields: seq<Field>) {
    && |fields| > 1 && fields[0] == RunnerId && fields[1] == RunnerKind
    && forall i :: 1 <= i < |fields| ==> fields[i] != RunnerId
  }

  lemma IdentityLedById()
    ensures LedById(IDENTITY)
  {}

  lemma JoinedParts(norm: Norm, a: Context, b: Context, fields: seq<Field>)
    requires LedById(fields) && Complete(norm, b) && Anchored(norm, a, fields)
    requires AllStripped(Parts(norm, a, fields)) && AllStripped(Parts(norm, b, fields))
    requires JoinBars(Parts(norm, a, fields)) == JoinBars(Parts(norm, b, fields))
    ensures Parts(norm, a, fields) == Parts(norm, b, fields)
  {
    FirmTail(norm, a, fields);
    KindPart(norm, b);
    JoinCutsFirst(Parts(norm, a, fields), Parts(norm, b, fields));
    assert FieldHeld(norm, a, fields[0]);
  }

  lemma SameParts(norm: Norm, a: Context, b: Context)
    requires NormNonblank(norm) && ContextsMatch(norm, a, b) && Anchored(norm, a, IDENTITY)
    ensures Parts(norm, a, IDENTITY) == Parts(norm, b, IDENTITY)
  {
    IdentityStripped(norm, a);
    IdentityStripped(norm, b);
    IdentityLedById();
    JoinedParts(norm, a, b, IDENTITY);
  }

  /** A fingerprint match against a context whose fields are held is equality field by field. */
  lemma MatchMeansSameIdentity(norm: Norm, a: Context, b: Context)
    requires NormNonblank(norm) && ContextsMatch(norm, a, b) && Anchored(norm, a, IDENTITY)
    ensures SameOn(norm, a, b, IDENTITY) && Anchored(norm, b, IDENTITY)
  {
    SameParts(norm, a, b);
    SamePartsMeansSame(norm, a, b, IDENTITY);
    SameKeepsHeld(norm, a, b, IDENTITY);
  }

  lemma SameKeepsHeld(norm: Norm, a: Context, b: Context, fields: seq<Field>)
    requires SameOn(norm, a, b, fields) && Anchored(norm, a, fields)
    ensures Anchored(norm, b, fields)
  {
    forall i | 0 <= i < |fields| ensures FieldHeld(norm, b, fields[i]) {
      assert SamePart(norm, a, b, fields[i]) && FieldHeld(norm, a, fields[i]);
    }
  }

  lemma SamePartsMeansSame(norm: Norm, a: Context, b: Context, fields: seq<Field>)
    requires Parts(norm, a, fields) == Parts(norm, b, fields)
    ensures SameOn(norm, a, b, fields)
  {
    forall i | 0 <= i < |fields| ensures SamePart(norm, a, b, fields[i]) {
      assert Parts(norm, a, fields)[i] == Parts(norm, b, fields)[i];
    }
  }

  /** Where each fence field stands among the identity fields. */
  function IdentityIndex(k: nat): (i: nat)
    requires k < |FENCE|
    ensures i < |IDENTITY| && IDENTITY[i] == FENCE[k]
  {
    if k < 3 then k + 1 else k + 2
  }

  lemma SameIdentityMeansSameFence(norm: Norm, a: Context, b: Context)
    requires Complete(norm, a) && Complete(norm, b) && SameOn(norm, a, b, IDENTITY)
    ensures SeatFence(norm, a, b)
  {
    forall k | 0 <= k < |FENCE| ensures SamePart(norm, a, b, FENCE[k]) {
      assert SamePart(norm, a, b, IDENTITY[IdentityIndex(k)]);
    }
    assert SamePart(norm, a, b, IDENTITY[10]) && Present(a, REQUIRED[10]);
  }
}
