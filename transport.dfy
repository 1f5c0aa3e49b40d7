/**
 * The one side-effecting primitive a strategy has: issuing a request to the
 * remote host. A request is recorded as an Event in a trace; the driver's
 * transport decides, by the request's position in the trace, whether it
 * fails and with which error.
 */
module Transport {
  import opened Options

  datatype Option<T> = None | Some(value: T)

  /** A Go `error` value: only its message is observable. */
  datatype Error = Error(message: string)

  datatype Result<T> = Ok(value: T) | Err(error: Error)

  /**
   * The driver a strategy is bound to: its machine identity and the
   * behaviour of its command transport. `outcomes[i]` is the error the
   * host answers to the request issued at trace position i; a position
   * absent from the map succeeds.
   */
  datatype Driver = Driver(machineName: string, driverName: string, outcomes: map<nat, Error>)
  {
    function OutcomeAt(i: nat): (r: Option<Error>)
      ensures r.Some? <==> i in outcomes
      ensures r.Some? ==> r.value == outcomes[i]
    {
      if i in outcomes then Some(outcomes[i]) else None
    }
  }

  /**
   * One request sent to the host: a literal command string passed to
   * SSHCommand, or a step of a collaborator whose body lies outside the
   * strategy (each such step is one request that may fail).
   */
  datatype Event =
    | Command(text: string)                      // SSHCommand(text)
    | HostnameTemplate(hostname: string)         // SSHCommand(fmt.Sprintf(hostnameTmpl, hostname))
    | BaseSetHostname(hostname: string)          // GenericProvisioner.SetHostname(hostname)
    | SelectDocker(url: string)                  // selectDocker(provisioner, url)
    | MakeDockerOptionsDir                       // makeDockerOptionsDir(provisioner)
    | ConfigureAuth(auth: AuthOptions)           // ConfigureAuth(provisioner), with the provisioner's AuthOptions
    | ConfigureSwarm(swarm: SwarmOptions, auth: AuthOptions)  // configureSwarm(provisioner, swarm, auth)

  /** What a sequence of steps did: the requests issued and the error returned, if any. */
  datatype Run = Run(issued: seq<Event>, err: Option<Error>)
  {
    /** Run `next` after this run, unless this run failed. */
    function Then(next: Run): Run
    {
      if err.Some? then this else Run(issued + next.issued, next.err)
    }

    /**
     * This run (begun at `start`), followed by the single request `e`,
     * answered at the position where this run stopped, unless it failed.
     */
    function Step(d: Driver, start: nat, e: Event): Run
    {
      Then(Run([e], d.OutcomeAt(start + |issued|)))
    }

    /**
     * This run (begun at `start`), followed by `plan` issued from the
     * position where it stopped, unless it failed.
     */
    function Continue(d: Driver, start: nat, plan: seq<Event>): Run
    {
      Then(FailFast(d, start + |issued|, plan))
    }
  }

  /**
   * Issuing the steps of `plan` in order, starting at trace position
   * `start`, and returning the first error unchanged.
   */
  function FailFast(d: Driver, start: nat, plan: seq<Event>): Run
    decreases |plan|
  {
    if plan == [] then Run([], None)
    else if start in d.outcomes then Run([plan[0]], Some(d.outcomes[start]))
    else
      var rest := FailFast(d, start + 1, plan[1..]);
      Run([plan[0]] + rest.issued, rest.err)
  }

  /**
   * A fail-fast run issues a prefix of its plan: all of it when it
   * succeeds; otherwise up to the refused step, whose error it returns.
   */
  lemma {:induction false} FailFastIssuesPrefix(d: Driver, start: nat, plan: seq<Event>)
    ensures var r := FailFast(d, start, plan);
            && |r.issued| <= |plan| && r.issued == plan[..|r.issued|]
            && (r.err.None? ==> r.issued == plan)
            && (r.err.Some? ==>
                  0 < |r.issued| && start + |r.issued| - 1 in d.outcomes
                  && r.err.value == d.outcomes[start + |r.issued| - 1])
    decreases |plan|
  {
    if plan != [] && start !in d.outcomes {
      FailFastIssuesPrefix(d, start + 1, plan[1..]);
    }
  }

  /** A plan succeeds exactly when the host accepts every one of its requests. */
  lemma {:induction false} FailFastSucceedsIff(d: Driver, start: nat, plan: seq<Event>)
    ensures FailFast(d, start, plan).err.None?
        <==> forall j :: start <= j < start + |plan| ==> j !in d.outcomes
    decreases |plan|
  {
    if plan != [] && start !in d.outcomes {
      FailFastSucceedsIff(d, start + 1, plan[1..]);
    }
  }

  /**
   * Reference characterisation: if the k-th step is the first the host
   * refuses, exactly the steps up to and including it are issued and its
   * error is returned; if none is refused, the whole plan is issued.
   */
  lemma {:induction false} FailFastIsFirstFailure(d: Driver, start: nat, plan: seq<Event>, k: nat)
    requires k <= |plan|
    requires forall j :: start <= j < start + k ==> j !in d.outcomes
    requires k < |plan| ==> start + k in d.outcomes
    ensures FailFast(d, start, plan)
         == if k < |plan| then Run(plan[..k + 1], Some(d.outcomes[start + k])) else Run(plan, None)
    decreases |plan|
  {
    if plan != [] && k > 0 {
      FailFastIsFirstFailure(d, start + 1, plan[1..], k - 1);
      if k < |plan| {
        assert [plan[0]] + plan[1..][..k] == plan[..k + 1];
      }
    } else if plan != [] {
      assert plan[..1] == [plan[0]];
    }
  }

  /** Running `p + q` is running `p`, then `q` only if `p` succeeded. */
  lemma {:induction false} FailFastAppend(d: Driver, start: nat, p: seq<Event>, q: seq<Event>)
    ensures FailFast(d, start, p + q) == FailFast(d, start, p).Then(FailFast(d, start + |p|, q))
    decreases |p|
  {
    if p == [] {
      assert p + q == q;
    } else if start !in d.outcomes {
      assert (p + q)[1..] == p[1..] + q;
      FailFastAppend(d, start + 1, p[1..], q);
    }
  }

  /** Nothing is issued after the first failure: a failed prefix fixes the whole run. */
  lemma FailFastStops(d: Driver, start: nat, p: seq<Event>, q: seq<Event>)
    requires FailFast(d, start, p).err.Some?
    ensures FailFast(d, start, p + q) == FailFast(d, start, p)
  {
    FailFastAppend(d, start, p, q);
  }

  /** One more step after a successful prefix is issued and answered at the next position. */
  lemma FailFastExtend(d: Driver, start: nat, p: seq<Event>, e: Event)
    requires FailFast(d, start, p).err.None?
    ensures FailFast(d, start, p + [e]) == Run(p + [e], d.OutcomeAt(start + |p|))
  {
    FailFastIssuesPrefix(d, start, p);
    FailFastSingle(d, start + |p|, e);
    FailFastAppend(d, start, p, [e]);
  }

  /**
   * A step refused after a successful prefix ends a longer plan there: the
   * prefix and the refused step are issued, with the step's error.
   */
  lemma FailFastRefusedStep(d: Driver, start: nat, done: seq<Event>, e: Event, rest: seq<Event>)
    requires FailFast(d, start, done).err.None?
    requires start + |done| in d.outcomes
    ensures FailFast(d, start, done + [e] + rest) == Run(done + [e], Some(d.outcomes[start + |done|]))
  {
    FailFastExtend(d, start, done, e);
    FailFastStops(d, start, done + [e], rest);
  }

  /** Continuing a plan from where it stopped is running the concatenated plan. */
  lemma {:induction false} ContinueIsAppend(d: Driver, start: nat, p: seq<Event>, q: seq<Event>)
    ensures FailFast(d, start, p).Continue(d, start, q) == FailFast(d, start, p + q)
    decreases |p|
  {
    if p == [] {
      assert p + q == q;
    } else if start !in d.outcomes {
      var rest := FailFast(d, start + 1, p[1..]);
      assert (p + q)[1..] == p[1..] + q;
      ContinueIsAppend(d, start + 1, p[1..], q);
      if rest.err.None? {
        FailFastIssuesPrefix(d, start + 1, p[1..]);
        AppendAssoc([p[0]], rest.issued, FailFast(d, start + 1 + |rest.issued|, q).issued);
      }
    }
  }

  /** A single step is issued and answered at its position. */
  lemma FailFastSingle(d: Driver, start: nat, e: Event)
    ensures FailFast(d, start, [e]) == Run([e], d.OutcomeAt(start))
  {
  }

  /** One more step after a run is the run of the plan extended by that step. */
  lemma StepIsAppend(d: Driver, start: nat, p: seq<Event>, e: Event)
    ensures FailFast(d, start, p).Step(d, start, e) == FailFast(d, start, p + [e])
  {
    FailFastSingle(d, start + |FailFast(d, start, p).issued|, e);
    ContinueIsAppend(d, start, p, [e]);
  }

  /** Appending to a trace in two steps is appending once: the trace's own bookkeeping. */
  lemma AppendAssoc(a: seq<Event>, b: seq<Event>, c: seq<Event>)
    ensures a + (b + c) == (a + b) + c
  {
  }
}
