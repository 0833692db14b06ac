/** The collaborators the server talks to, abstracted as oracles: the token file,
    the interactive OAuth flow, credential validity, the discovery `build` and
    the two Google Calendar requests. Each interaction is recorded as an
    `Effect`, so the order and presence of I/O can be stated. */
module Backend {
  import opened Wrappers
  import opened Errors
  import opened CalendarApi

  /** An OAuth credential; its contents are opaque to the server. */
  datatype Cred = Cred(token: string)

  /** A built Calendar API client. */
  datatype Service = Service(handle: nat)

  /** What `token.pickle` holds: a pickled credential, or bytes `pickle.load`
      cannot read back (for instance after a dump that failed half way). */
  datatype Blob = Pickled(cred: Cred) | Damaged

  datatype TokenFile = Absent | Present(blob: Blob)

  /** The outcome of writing the token file. Opening it with `'wb'` truncates it,
      so a failure after the open leaves it damaged; a failing open leaves it as
      it was. */
  datatype WriteOutcome = Written | WriteFailed(cause: Cause, truncated: bool)

  /** The file was opened for writing, so `pickle.dump` ran (and may have failed). */
  predicate Opened(w: WriteOutcome) {
    w.Written? || w.truncated
  }

  /** The oracles of one call. `valid` is `creds.valid` (it depends on the clock,
      which is not modelled); `flow` is what the interactive flow yields;
      `loadError` is what `pickle.load` raises on a damaged file. */
  datatype Env = Env(
    valid: Cred -> bool,
    loadError: Cause,
    flow: Result<Cred, Cause>,
    write: WriteOutcome,
    build: Cred -> Result<Service, Cause>,
    insert: (Service, InsertRequest) -> Result<Event, Cause>,
    list: (Service, ListRequest) -> Result<ListResponse, Cause>)

  /** The observable interactions, in the order they happen. */
  datatype Effect =
    | CheckTokenFile                               // os.path.exists
    | LoadToken                                    // pickle.load
    | RunFlow                                      // InstalledAppFlow … run_local_server
    | SaveToken                                    // open(…, 'wb') succeeded, pickle.dump
    | BuildService                                 // build('calendar', 'v3', …)
    | InsertEvent(insertRequest: InsertRequest)    // events().insert(…).execute()
    | ListEvents(listRequest: ListRequest)         // events().list(…).execute()

  predicate IsBackendCall(e: Effect) {
    e.InsertEvent? || e.ListEvents?
  }

  predicate NoBackendCall(trace: seq<Effect>) {
    forall i :: 0 <= i < |trace| ==> !IsBackendCall(trace[i])
  }
}
