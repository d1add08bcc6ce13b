/** What clients ask of the daemon, what the outside world answers, and what the handlers make of both. */
module Requests {
  import opened Wrappers
  import opened Numerals
  import opened Lifecycle
  import opened JobTable

  /** What a checkpoint directory holds; only its identity matters. */
  type Image = int

  /** The requests that can change a job. List, show and ping only read. */
  datatype Request =
    | Register(pid: int, pgid: int, dir: Path, at: int, meta: Meta)
    | Adopt(dir: Path, at: int, meta: Meta)
    | Pause(name: string, actor: string)
    | Resume(name: string, actor: string)
    | Cancel(name: string, actor: string)
    | Complete(name: string, code: int, msg: string, actor: string)

  /** run and join register a live process that leads its own group. */
  predicate Sane(r: Request) {
    r.Register? ==> r.pid == r.pgid > 0
  }

  /** The answer of an outside call: a hook or directory check, a kill, a dump or a restore. A failure comes with
      an error text, a restore with a pid, and a dump, successful or not, with what it leaves in the directory. */
  datatype Choice = Choice(ok: bool, err: string, pid: int, left: Option<Image>)

  /** Every error text is built with a literal prefix, every restored process has a positive pid, and a dump that
      reports success has written an image. */
  predicate Plausible(c: Choice) {
    c.err != "" && c.pid > 0 && (c.ok ==> c.left.Some?)
  }

  /** Two plausible answers, for concrete runs. */
  const YES := Choice(true, "error", 9, Some(0))
  const NO := Choice(false, "error", 9, None)

  const DAEMON_ACTOR := "daemon"

  function RegisteredJob(r: Request): Job
    requires r.Register?
  {
    Job(r.pid, r.pgid, r.dir, Running, "", r.at, r.meta)
  }

  function AdoptedJob(r: Request): Job
    requires r.Adopt?
  {
    Job(0, 0, r.dir, CheckpointCreated, "", r.at, r.meta)
  }

  function ExitUpdate(code: int, msg: string): Update {
    if code == 0 then SetStatus(Completed, "")
    else SetStatus(Failed, if msg == "" then "exited with code " + FormatInt(code) else msg)
  }

  function DumpUpdate(c: Choice): Update {
    if c.ok then SetStatus(CheckpointCreated, "") else SetStatus(CheckpointCreationFailed, c.err)
  }

  function RestoreUpdate(c: Choice): Update {
    if c.ok then SetPid(c.pid, c.pid) else SetStatus(RestoreFailed, c.err)
  }

  /** The shape of every update a handler issues: an error text goes with the failing statuses and no others, and
      a job re-enters RUNNING only together with a live pid. */
  predicate WellFormed(u: Update) {
    match u
    case SetStatus(to, reason) => to != Running && (reason != "" <==> Failing(to))
    case SetPid(pid, pgid) => pid == pgid > 0
  }

  predicate IsRegistered(j: Job) {
    j.status == Running && j.reason == "" && j.pid == j.pgid > 0
  }

  predicate IsAdopted(j: Job) {
    j.status == CheckpointCreated && j.reason == "" && j.pid == j.pgid == 0
  }
}
