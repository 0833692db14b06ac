/** `CalendarServer.initialize`: the lazy creation of the Calendar service from a
    persisted or freshly authorised credential. The `if self.service` check takes
    no lock, but `initialize` awaits nothing, so a call that starts initialising
    finishes before another call is served. One call at a time is modelled. */
module Lifecycle {
  import opened Wrappers
  import opened Errors
  import opened Backend

  /** The server's mutable state: the cached service and the token file on disk. */
  datatype ServerState = ServerState(service: Option<Service>, tokenFile: TokenFile)

  /** One step of the server: its result, the state after it and the effects it
      performed, in order. */
  datatype Step<T> = Step(result: Result<T, Error>, state: ServerState, trace: seq<Effect>)

  /** The interactive flow runs when no credential was loaded or the loaded one
      is not valid. An unreadable token file raises before this is decided. */
  predicate FlowNeeded(file: TokenFile, env: Env) {
    file.Absent? || (file.blob.Pickled? && !env.valid(file.blob.cred))
  }

  /** `self.service = build(…, credentials=cred)`. */
  function BuildStep(cred: Cred, st: ServerState, trace: seq<Effect>, env: Env): Step<()> {
    match env.build(cred)
    case Failure(c) => Step(Failure(Raised(c)), st, trace + [BuildService])
    case Success(svc) => Step(Success(()), st.(service := Some(svc)), trace + [BuildService])
  }

  /** `initialize`: return at once when a service exists; otherwise load the
      token file if there is one, run the flow and save its credential when
      needed, then build the service. Every failure is re-raised unchanged. */
  function Initialize(st: ServerState, env: Env): (s: Step<()>)
    ensures st.service.Some? ==> s == Step(Success(()), st, [])
    ensures s.result.Success? <==> s.state.service.Some?
    ensures s.result.Failure? ==> s.state.service == st.service
    ensures RunFlow in s.trace <==> st.service.None? && FlowNeeded(st.tokenFile, env)
    ensures SaveToken in s.trace <==> RunFlow in s.trace && env.flow.Success? && Opened(env.write)
    ensures RunFlow in s.trace && env.flow.Success? ==>
              && (env.write.Written? ==> s.state.tokenFile == Present(Pickled(env.flow.value)))
              && (env.write.WriteFailed? && env.write.truncated ==> s.state.tokenFile == Present(Damaged))
              && (env.write.WriteFailed? && !env.write.truncated ==> s.state.tokenFile == st.tokenFile)
    ensures s.state.tokenFile != st.tokenFile ==> SaveToken in s.trace
    ensures NoBackendCall(s.trace)
  {
    if st.service.Some? then Step(Success(()), st, [])
    else
      var loaded := if st.tokenFile.Present? then [CheckTokenFile, LoadToken] else [CheckTokenFile];
      if st.tokenFile == Present(Damaged) then
        Step(Failure(Raised(env.loadError)), st, loaded)
      else if !FlowNeeded(st.tokenFile, env) then
        BuildStep(st.tokenFile.blob.cred, st, loaded, env)
      else
        var flowed := loaded + [RunFlow];
        match env.flow
        case Failure(c) => Step(Failure(Raised(c)), st, flowed)
        case Success(cred) =>
          match env.write
          case WriteFailed(c, truncated) =>
            // A failed open writes nothing; a failed dump leaves a truncated file.
            if truncated then
              Step(Failure(Raised(c)), st.(tokenFile := Present(Damaged)), flowed + [SaveToken])
            else
              Step(Failure(Raised(c)), st, flowed)
          case Written =>
            BuildStep(cred, st.(tokenFile := Present(Pickled(cred))), flowed + [SaveToken], env)
  }

  /** A valid persisted credential is used as is: it is loaded, nothing is
      written, no flow runs, and the service is the one built from it. */
  lemma ValidTokenUsedAsIs(st: ServerState, env: Env, cred: Cred)
    requires st.service.None? && st.tokenFile == Present(Pickled(cred)) && env.valid(cred)
    ensures var s := Initialize(st, env);
            && s.trace == [CheckTokenFile, LoadToken, BuildService]
            && s.state.tokenFile == st.tokenFile
            && (s.result.Success? <==> env.build(cred).Success?)
            && (s.result.Success? ==> s.state.service == Some(env.build(cred).value))
  {
  }

  /** When the flow is needed and succeeds, its credential is written before the
      service is built from it, and stays on disk even if the build fails. */
  lemma FreshCredentialSavedBeforeBuild(st: ServerState, env: Env, cred: Cred)
    requires st.service.None? && FlowNeeded(st.tokenFile, env)
    requires env.flow == Success(cred) && env.write.Written?
    ensures var s := Initialize(st, env);
            && s.state.tokenFile == Present(Pickled(cred))
            && s.trace[|s.trace| - 3..] == [RunFlow, SaveToken, BuildService]
            && (s.result.Success? <==> env.build(cred).Success?)
            && (s.result.Success? ==> s.state.service == Some(env.build(cred).value))
  {
  }

  /** Every failure of a collaborator (reading the token file, the flow, the
      write, the build) surfaces unchanged, and leaves the service unset. A
      token file that cannot be opened is left as it was. */
  lemma FailuresPropagate(st: ServerState, env: Env)
    requires st.service.None?
    ensures st.tokenFile == Present(Damaged) ==>
              Initialize(st, env) == Step(Failure(Raised(env.loadError)), st, [CheckTokenFile, LoadToken])
    ensures FlowNeeded(st.tokenFile, env) && env.flow.Failure? ==>
              Initialize(st, env).result == Failure(Raised(env.flow.error))
              && Initialize(st, env).state == st
    ensures FlowNeeded(st.tokenFile, env) && env.flow.Success? && env.write.WriteFailed? ==>
              Initialize(st, env).result == Failure(Raised(env.write.cause))
              && Initialize(st, env).state.service.None?
    ensures FlowNeeded(st.tokenFile, env) && env.flow.Success? && !Opened(env.write) ==>
              && Initialize(st, env).state == st
              && SaveToken !in Initialize(st, env).trace
    ensures st.tokenFile.Present? && st.tokenFile.blob.Pickled? && !FlowNeeded(st.tokenFile, env)
            && env.build(st.tokenFile.blob.cred).Failure? ==>
              Initialize(st, env).result == Failure(Raised(env.build(st.tokenFile.blob.cred).error))
    ensures FlowNeeded(st.tokenFile, env) && env.flow.Success? && env.write.Written?
            && env.build(env.flow.value).Failure? ==>
              Initialize(st, env).result == Failure(Raised(env.build(env.flow.value).error))
    ensures Initialize(st, env).result.Failure? ==> Initialize(st, env).state.service.None?
  {
  }

  /** After a successful initialisation, initialising again does nothing. */
  lemma InitializeIdempotent(st: ServerState, env: Env, env': Env)
    requires Initialize(st, env).result.Success?
    ensures var s := Initialize(st, env).state;
            Initialize(s, env') == Step(Success(()), s, [])
  {
  }

  /** A build that fails after a successful flow leaves the fresh credential on
      disk, so a retry while it is still valid does not run the flow again. */
  lemma RetryAfterBuildFailure(st: ServerState, env: Env, env': Env, cred: Cred)
    requires st.service.None? && FlowNeeded(st.tokenFile, env)
    requires env.flow == Success(cred) && env.write.Written? && env.build(cred).Failure?
    requires env'.valid(cred)
    ensures var s := Initialize(st, env);
            && s.state.service.None?
            && RunFlow !in Initialize(s.state, env').trace
  {
  }
}
