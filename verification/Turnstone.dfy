/**
 How the dispatcher reads the remote's answers: which are a refusal, which leave the outcome open, and what an
 inspection may claim.  The queue's protocol relies on exactly these readings.
 */
module Turnstone {
  import opened Options
  import opened QueueTables
  import opened QueueProtocol

  /** What comes back from one HTTP request: nothing usable, or a status and a decoded body. */
  datatype Response<+T> = Lost | Status(code: int, body: Option<T>)

  predicate Success(code: int) {
    200 <= code < 300
  }

  /** `_owner`: the stored owner, else the resolved creator, else the default. */
  function Owner(stored: string, resolved: string, fallback: string): string {
    if stored != "" then stored else if resolved != "" then resolved else fallback
  }

  // ----- open -----

  /** The parts of an opening's result that the scheduler looks at; None when reading a success raises. */
  datatype Opening = Created(handle: Handle) | Failed(retry: bool)

  /** The body of a success may name the handle; otherwise it is the one asked for. */
  function Open(owner: string, minted: bool, asked: Handle, r: Response<Option<Handle>>): Option<Opening> {
    if owner == "" || !minted then Some(Failed(true))
    else
      match r
      case Lost => Some(Failed(false))
      case Status(code, body) =>
        if code == 409 then Some(Failed(false))
        else if 400 <= code < 500 then Some(Failed(true))
        else if !Success(code) then Some(Failed(false))
        else if body.None? then None
        else Some(Created(if body.value.Some? then body.value.value else asked))
  }

  /** What the remote is assumed to mean: it creates nothing when it answers with a client error other than a
      conflict, and under the handle asked for when it reports success. */
  predicate MeansCreate(r: Response<Option<Handle>>, asked: Handle, created: bool) {
    match r
    case Lost => true
    case Status(code, body) =>
      && (400 <= code < 500 && code != 409 ==> !created)
      && (Success(code) ==> created && (body.Some? && body.value.Some? ==> body.value.value == asked))
  }

  /** A creation is offered for retry just when it was never sent or was refused for sure, so only when nothing
      was created; a success means created under the reserved handle; everything else leaves the outcome open. */
  lemma OpenIsSafe(owner: string, minted: bool, asked: Handle, r: Response<Option<Handle>>, created: bool)
    requires MeansCreate(r, asked, created) && (owner == "" || !minted ==> !created)
    ensures var o := Open(owner, minted, asked, r);
            && (o == Some(Failed(true)) <==>
                  owner == "" || !minted || (r.Status? && 400 <= r.code < 500 && r.code != 409))
            && (o == Some(Failed(true)) ==> !created)
            && (o.Some? && o.value.Created? ==> created && o.value.handle == asked)
            && (created ==> o.None? || o == Some(Failed(false)) || o == Some(Created(asked)))
  {
  }

  // ----- feed -----

  /** Accepted, or not; None when reading the answer raises. */
  function Feed(owner: string, minted: bool, r: Response<string>): Option<bool> {
    if owner == "" || !minted then Some(false)
    else
      match r
      case Lost => Some(false)
      case Status(code, body) =>
        if !Success(code) then Some(false)
        else if body.None? then None
        else Some(body.value == "ok" || body.value == "queued")
  }

  /** What the remote is assumed to mean: it has the message if it says so in a success. */
  predicate MeansSend(r: Response<string>, has: bool) {
    r.Status? && Success(r.code) && r.body.Some? && (r.body.value == "ok" || r.body.value == "queued") ==> has
  }

  /** A delivery counts as accepted only if the remote has the message; a missing workstream is one refusal among
      others, and no delivery is accepted without an identity. */
  lemma FeedIsSafe(owner: string, minted: bool, r: Response<string>, has: bool)
    requires MeansSend(r, has)
    ensures Feed(owner, minted, r) == Some(true) ==> has && owner != "" && minted
    ensures r.Status? && (r.code == 404 || r.code == 410) ==> Feed(owner, minted, r) == Some(false)
  {
  }

  // ----- inspect -----

  /** The metadata of a workstream: what is persisted, and the state of the live session if there is one. */
  datatype Detail = Detail(
    userId: string, wsId: Handle, state: string, project: string, updated: Option<Time>, live: Option<string>)
  {
    function State(): string {
      if live.Some? && live.value != "" then live.value else state
    }
  }

  predicate Ending(state: string) {
    state == "closed" || state == "deleted"
  }

  /** `inspect`: anything short of a complete answer about this very workstream is unknown. */
  function Inspect(owner: string, minted: bool, h: Handle, r: Response<Detail>): Reply {
    if owner == "" || !minted || r.Lost? || r.code != 200 || r.body.None? then Unknown
    else
      var d := r.body.value;
      if d.userId != owner || d.wsId != h || d.State() == "" then Unknown
      else Known(Ending(d.State()), d.live.Some?, d.project, if Ending(d.State()) then d.updated else None)
  }

  /** What the remote is assumed to mean: its metadata is true of the workstream that it names. */
  predicate MeansDetail(agents: map<Handle, Agent>, r: Response<Detail>) {
    r.Status? && r.code == 200 && r.body.Some? ==>
      var d := r.body.value;
      && d.wsId in agents
      && (Ending(d.State()) ==> agents[d.wsId].state == Ended)
      && (d.live.Some? && !Ending(d.State()) ==> agents[d.wsId].state == Alive)
  }

  /** An inspection tells the truth about the workstream asked for, whoever the answer was about. */
  lemma InspectIsTruthful(agents: map<Handle, Agent>, owner: string, minted: bool, h: Handle, r: Response<Detail>)
    requires MeansDetail(agents, r)
    ensures Truthful(agents, h, Inspect(owner, minted, h, r))
  {
  }

  /** A slot is released just when the owner's own workstream of that handle is reported closed or deleted; no
      error status, a 404 included, ever does that. */
  lemma GoneMeans(owner: string, minted: bool, h: Handle, r: Response<Detail>)
    ensures Inspect(owner, minted, h, r).Gone() <==>
            && owner != "" && minted && r.Status? && r.code == 200 && r.body.Some?
            && r.body.value.userId == owner && r.body.value.wsId == h && Ending(r.body.value.State())
  {
  }

  /** What `prepare` freezes of a rule; None when no owner can be resolved. */
  function Prepare(owner: string, ruleProject: string, targetProject: string, fallback: string): Option<(string, string)> {
    if owner == "" then None
    else Some((owner, if ruleProject != "" then ruleProject else if targetProject != "" then targetProject else fallback))
  }

  /** Freezing what is frozen changes nothing, so the comparison before a delivery fails only when rule, target or
      defaults have changed. */
  lemma PrepareIsIdempotent(stored: string, resolved: string, defaultOwner: string,
                            ruleProject: string, targetProject: string, fallback: string)
    ensures var p := Prepare(Owner(stored, resolved, defaultOwner), ruleProject, targetProject, fallback);
            p.Some? ==>
              p.value.0 != "" && p == Prepare(Owner(p.value.0, resolved, defaultOwner), p.value.1, targetProject, fallback)
  {
  }
}
