/**
 * `createRunner` / `run` of `asyncRunner.ts`: one awaited task wrapped in the
 * hook's busy flags and error slot. The task sits between `Start` (the code
 * before `try`) and `Settle` (the `catch` and `finally`); the caller performs the
 * task's own effects in between and hands over how its promise settled.
 */
module AsyncRunner {
  import opened Outcomes
  import opened Toasts

  /** A run's `kind`. */
  datatype RunKind = Load | Connect

  /** `kind = "load"`: an omitted kind is a load. */
  function KindOrDefault(kind: Option<RunKind>): (r: RunKind)
  {
    if kind.Some? then kind.value else Load
  }

  /** The three pieces of hook state the runner writes (`null` is `None`). */
  datatype Flags = Flags(isLoading: bool, isConnecting: bool, error: Option<string>)

  const Idle: Flags := Flags(false, false, None)

  /** The flags after the code before `try`. */
  function Started(f: Flags, kind: RunKind): Flags
  {
    var f' := if kind == Connect then f.(isConnecting := true) else f.(isLoading := true);
    f'.(error := None)
  }

  /** The flags after `catch` (on a rejection) and `finally`. */
  function Settled<T>(f: Flags, kind: RunKind, o: Outcome<T>): Flags
  {
    var f' := if o.Err? then f.(error := Some(Message(o.error))) else f;
    if kind == Connect then f'.(isConnecting := false) else f'.(isLoading := false)
  }

  /** The notices `run` shows by itself: one error notice with the message on a rejection. */
  function RunNotices<T>(o: Outcome<T>): seq<Notice>
  {
    if o.Err? then [Notice(ErrorToast, Message(o.error))] else []
  }

  /** The optional callback `run` invokes. */
  datatype Callback<T> = OnSuccess(result: T) | OnError(error: Thrown)

  function CallbackOf<T>(o: Outcome<T>): Callback<T>
  {
    match o
    case Ok(v) => OnSuccess(v)
    case Err(e) => OnError(e)
  }

  /**
   * Entry sets only the flag of the run's kind, and clears the error.
   */
  lemma StartedSetsOneFlag(f: Flags, kind: RunKind)
    ensures Started(f, kind).error == None
    ensures kind == Connect ==> Started(f, kind).isConnecting && Started(f, kind).isLoading == f.isLoading
    ensures kind == Load ==> Started(f, kind).isLoading && Started(f, kind).isConnecting == f.isConnecting
  {
  }

  /**
   * A whole run resets the flag it set and leaves the other one alone, on every
   * exit path; the error slot ends empty on success and holds the message on failure.
   */
  lemma RunEndsIdle<T>(f: Flags, kind: RunKind, o: Outcome<T>)
    ensures var g := Settled(Started(f, kind), kind, o);
      && (kind == Connect ==> !g.isConnecting && g.isLoading == f.isLoading)
      && (kind == Load ==> !g.isLoading && g.isConnecting == f.isConnecting)
      && g.error == (if o.Ok? then None else Some(Message(o.error)))
  {
  }

  /**
   * A failed run followed by a successful one keeps no trace of the failure
   * in the error slot: every run starts by clearing it.
   */
  lemma RetryClearsError<T>(f: Flags, kind: RunKind, e: Thrown, v: T)
    ensures var failed := Settled(Started(f, kind), kind, Outcome<T>.Err(e));
      Settled(Started(failed, kind), kind, Ok(v)).error == None
  {
  }

  class Runner {
    var isLoading: bool
    var isConnecting: bool
    var error: Option<string>
    const toasts: Toaster

    function State(): Flags
      reads this
    {
      Flags(isLoading, isConnecting, error)
    }

    constructor (toasts: Toaster)
      ensures State() == Idle && this.toasts == toasts
    {
      isLoading := false;
      isConnecting := false;
      error := None;
      this.toasts := toasts;
    }

    /** `if (kind === "connect") setIsConnecting(true); else setIsLoading(true); setError(null);` */
    method Start(kind: RunKind)
      modifies this
      ensures State() == Started(old(State()), kind)
    {
      if kind == Connect {
        isConnecting := true;
      } else {
        isLoading := true;
      }
      error := None;
    }

    /**
     * The rest of `run`: a resolved task calls `onSuccess` and returns its value;
     * a rejected one stores and shows the message, calls `onError` and rethrows the
     * same value; both reset the kind's flag.
     */
    method Settle<T>(kind: RunKind, o: Outcome<T>) returns (r: Outcome<T>, called: Callback<T>)
      modifies this, toasts
      ensures State() == Settled(old(State()), kind, o)
      ensures toasts.log == old(toasts.log) + RunNotices(o)
      ensures r == o && called == CallbackOf(o)
    {
      match o {
        case Ok(v) =>
          called := OnSuccess(v);
        case Err(e) =>
          var msg := Message(e);
          error := Some(msg);
          toasts.Error(msg);
          called := OnError(e);
      }
      if kind == Connect {
        isConnecting := false;
      } else {
        isLoading := false;
      }
      r := o;
    }

    /** `run({kind, task})` for a task whose only effect is its result. */
    method Run<T>(kind: Option<RunKind>, o: Outcome<T>) returns (r: Outcome<T>, called: Callback<T>)
      modifies this, toasts
      ensures State() == Settled(Started(old(State()), KindOrDefault(kind)), KindOrDefault(kind), o)
      ensures toasts.log == old(toasts.log) + RunNotices(o)
      ensures r == o && called == CallbackOf(o)
    {
      Start(KindOrDefault(kind));
      r, called := Settle(KindOrDefault(kind), o);
    }
  }
}
