/**
 * The plugin-installer (`!!MCDR plugin ...`) command extension around the
 * operation guard: the guarded commands, the conflict resolver that either
 * invokes `install` again once the install handler agrees or reports the
 * duplicate, the fetch notices sent while catalogue metadata is obtained,
 * the join on shutdown, and the install suggestions.
 *
 * Replies are recorded as values; translating them to text is not modelled.
 */
module PimCommand {
  import opened Optional
  import opened OperationGuard

  /** The four guarded commands. */
  datatype Command = Browse | CheckUpdate | RefreshMeta | Install {
    /** The operation key each command is registered under. */
    function Key(): OpKey
    {
      match this
      case Browse => "browse"
      case CheckUpdate => "check_update"
      case RefreshMeta => "refreshmeta"
      case Install => "install"
    }
  }

  /** A reply sent to the command source, by translation key and argument. */
  datatype Reply =
    | DuplicatedInput(operationNameKey: string)  // common.duplicated_input
    | FetchStart                                 // common.fetch_start
    | FetchFailed(error: string)                 // common.fetch_failed
    | FetchDone                                  // common.fetch_done
    | FetchBlockWait                             // common.fetch_block_wait

  /** The translation key of an operation's display name, formatted from
      the running key; Python formats a missing key as `None`. */
  function OperationNameKey(runningKey: Option<OpKey>): string
  {
    runningKey.GetOr("None") + ".name"
  }

  /** What the conflict resolver does. `consultedInstall` says whether the
      install handler was asked to prepare for the duplicated input;
      `handOff` that the install command is invoked again, through the guard,
      instead of a reply. */
  datatype Resolution = Resolution(consultedInstall: bool, handOff: bool, replies: seq<Reply>)

  /** The conflict resolver for a `requested` command arriving while the
      operation `runningKey` runs. `installAccepts` is what the install
      handler's `try_prepare_for_duplicated_input` answers; it is asked only
      when the requested command is install. */
  function ResolveConflict(requested: Command, runningKey: Option<OpKey>, installAccepts: bool): (r: Resolution)
    ensures r.consultedInstall <==> requested == Install
    ensures r.handOff <==> requested == Install && installAccepts
    ensures r.handOff ==> r.replies == []
    ensures !r.handOff ==> r.replies == [DuplicatedInput(OperationNameKey(runningKey))]
  {
    if requested == Install && installAccepts then
      Resolution(true, true, [])
    else
      Resolution(requested == Install, false, [DuplicatedInput(OperationNameKey(runningKey))])
  }

  /** A guarded command invoked from the command tree: it starts on the
      guard or, when an operation already runs, goes to the conflict
      resolver with the running key. */
  method Invoke(h: OperationHolder, cmd: Command, launch: Launch, installAccepts: bool)
    returns (r: StartResult, resolution: Option<Resolution>)
    requires h.Valid()
    modifies h
    ensures h.Valid()
    ensures old(h.locked) <==> r.Skipped?
    ensures old(h.locked) ==> unchanged(h) && resolution == Some(ResolveConflict(cmd, old(h.opKey), installAccepts))
    ensures !old(h.locked) ==> resolution == None
    ensures !old(h.locked) && launch.Launched? ==> (r == Started(launch.thread) && h.opKey == Some(cmd.Key())
      && h.thread == Some(launch.thread) && h.body == Some(launch.thread))
    ensures !old(h.locked) && launch.LaunchRaised? ==> r == LaunchFailed(launch.exc) && h.Idle()
  {
    r := h.TryStart(cmd.Key(), launch);
    if r.Skipped? {
      resolution := Some(ResolveConflict(cmd, r.call.opKey, installAccepts));
    } else {
      resolution := None;
    }
  }

  /** While an install runs, a second install that the install handler
      agrees to is invoked again without a reply, and a browse request is
      told that the install is running. */
  method DuplicatedRequests(t1: ThreadId, t2: ThreadId, t3: ThreadId)
    returns (second: Option<Resolution>, third: Option<Resolution>)
    ensures second.Some? && second.value.handOff && second.value.replies == []
    ensures third.Some? && !third.value.handOff && third.value.replies == [DuplicatedInput("install.name")]
  {
    var h := new OperationHolder();
    var r1, _ := Invoke(h, Install, Launched(t1), true);
    var r2;
    r2, second := Invoke(h, Install, Launched(t2), true);
    var r3;
    r3, third := Invoke(h, Browse, Launched(t3), true);
    assert OperationNameKey(Some("install")) == "install.name";
  }

  /** A join of `thread` bounded by `timeout` seconds. */
  datatype Join = Join(thread: ThreadId, timeout: int)

  /** The guard part of `on_mcdr_stop`: join the recorded thread, if any,
      for one second more than the install confirmation wait. */
  method OnMcdrStop(h: OperationHolder, confirmWaitTimeout: int) returns (join: Option<Join>)
    ensures join.Some? <==> h.thread.Some?
    ensures join.Some? ==> join.value == Join(h.thread.value, confirmWaitTimeout + 1)
    ensures h.Valid() ==> (join.Some? <==> h.locked)
    ensures h.Valid() && h.locked ==> join.value.thread == h.body.value
  {
    var thread := h.thread;
    if thread.Some? {
      join := Some(Join(thread.value, confirmWaitTimeout + 1));
    } else {
      join := None;
    }
  }

  /** Suggestions for the install command's plugin specifier: every plugin
      id of the catalogue, and `*` to update all installed plugins. */
  function SuggestPluginIds(catalogueIds: set<string>): (r: set<string>)
    ensures "*" in r && catalogueIds <= r
    ensures forall k :: k in r ==> k in catalogueIds || k == "*"
  {
    catalogueIds + {"*"}
  }

  /** A callback made by the metadata holder during one `get_cata_meta`. */
  datatype FetchEvent = StartCallback(noSkip: bool) | DoneCallback(error: Option<string>) | BlockedCallback

  /** `has_start_fetch` after `events`: the argument of the latest start
      callback, `false` before any. */
  function HasStartFetch(events: seq<FetchEvent>): bool
  {
    if events == [] then false
    else if events[|events| - 1].StartCallback? then events[|events| - 1].noSkip
    else HasStartFetch(events[..|events| - 1])
  }

  /** The replies one callback sends, given `has_start_fetch` before it. */
  function ReplyTo(hasStartFetch: bool, event: FetchEvent): seq<Reply>
  {
    match event
    case StartCallback(noSkip) => if noSkip then [FetchStart] else []
    case DoneCallback(Some(e)) => [FetchFailed(e)]
    case DoneCallback(None) => if hasStartFetch then [FetchDone] else []
    case BlockedCallback => [FetchBlockWait]
  }

  /** Every reply sent by the callbacks `events`, in order. */
  function Replies(events: seq<FetchEvent>): seq<Reply>
  {
    if events == [] then []
    else
      var init := events[..|events| - 1];
      Replies(init) + ReplyTo(HasStartFetch(init), events[|events| - 1])
  }

  /** One more callback extends the flag and the replies by that callback's
      own effect. */
  lemma AppendEvent(events: seq<FetchEvent>, event: FetchEvent)
    ensures HasStartFetch(events + [event]) == if event.StartCallback? then event.noSkip else HasStartFetch(events)
    ensures Replies(events + [event]) == Replies(events) + ReplyTo(HasStartFetch(events), event)
  {
  }

  /** The callback state of one `get_cata_meta` call. */
  class FetchNotices {
    var hasStartFetch: bool
    /** The replies sent to the command source so far. */
    var sent: seq<Reply>
    /** The callbacks made so far. */
    ghost var events: seq<FetchEvent>

    ghost predicate Valid()
      reads this
    {
      hasStartFetch == HasStartFetch(events) && sent == Replies(events)
    }

    constructor ()
      ensures Valid() && events == [] && sent == [] && !hasStartFetch
    {
      hasStartFetch := false;
      sent := [];
      events := [];
    }

    /** `start_fetch_callback`: remembers whether this call fetches and
        announces the fetch when it does. */
    method OnStartFetch(noSkip: bool)
      requires Valid()
      modifies this
      ensures Valid() && events == old(events) + [StartCallback(noSkip)]
      ensures hasStartFetch == noSkip
      ensures sent == old(sent) + (if noSkip then [FetchStart] else [])
    {
      hasStartFetch := noSkip;
      if noSkip {
        sent := sent + [FetchStart];
      }
      AppendEvent(events, StartCallback(noSkip));
      events := events + [StartCallback(noSkip)];
    }

    /** `done_callback`: a failure is always reported; a success only when
        this call started the fetch. */
    method OnDone(error: Option<string>)
      requires Valid()
      modifies this
      ensures Valid() && events == old(events) + [DoneCallback(error)]
      ensures hasStartFetch == old(hasStartFetch)
      ensures error.Some? ==> sent == old(sent) + [FetchFailed(error.value)]
      ensures error.None? ==> sent == old(sent) + (if old(hasStartFetch) then [FetchDone] else [])
    {
      if error.Some? {
        sent := sent + [FetchFailed(error.value)];
      } else if hasStartFetch {
        sent := sent + [FetchDone];
      }
      AppendEvent(events, DoneCallback(error));
      events := events + [DoneCallback(error)];
    }

    /** `blocked_callback`: always asks the user to wait. */
    method OnBlocked()
      requires Valid()
      modifies this
      ensures Valid() && events == old(events) + [BlockedCallback]
      ensures hasStartFetch == old(hasStartFetch)
      ensures sent == old(sent) + [FetchBlockWait]
    {
      sent := sent + [FetchBlockWait];
      AppendEvent(events, BlockedCallback);
      events := events + [BlockedCallback];
    }
  }

  /** `fetch_start` is sent exactly when some start callback got `true`. */
  lemma {:induction false} FetchStartIff(events: seq<FetchEvent>)
    ensures FetchStart in Replies(events) <==> StartCallback(true) in events
  {
    if events != [] {
      var init := events[..|events| - 1];
      assert events == init + [events[|events| - 1]];
      FetchStartIff(init);
    }
  }

  /** `fetch_done` is never sent unless a start callback got `true`. */
  lemma {:induction false} FetchDoneNeedsStart(events: seq<FetchEvent>)
    ensures FetchDone in Replies(events) ==> StartCallback(true) in events
    ensures HasStartFetch(events) ==> StartCallback(true) in events
  {
    if events != [] {
      var init := events[..|events| - 1];
      assert events == init + [events[|events| - 1]];
      FetchDoneNeedsStart(init);
    }
  }

  /** Every failure reaches the user: `fetch_failed(e)` is sent exactly for
      the done callbacks that carry the error `e`. */
  lemma {:induction false} FailuresReported(events: seq<FetchEvent>, e: string)
    ensures FetchFailed(e) in Replies(events) <==> DoneCallback(Some(e)) in events
  {
    if events != [] {
      var init := events[..|events| - 1];
      assert events == init + [events[|events| - 1]];
      FailuresReported(init, e);
    }
  }

  /** One `fetch_block_wait` per blocked callback. */
  lemma {:induction false} BlockWaitPerBlocked(events: seq<FetchEvent>)
    ensures multiset(Replies(events))[FetchBlockWait] == multiset(events)[BlockedCallback]
  {
    if events != [] {
      var init, last := events[..|events| - 1], events[|events| - 1];
      assert events == init + [last];
      BlockWaitPerBlocked(init);
      AppendEvent(init, last);
      var added := ReplyTo(HasStartFetch(init), last);
      assert multiset(Replies(events)) == multiset(Replies(init)) + multiset(added);
      assert multiset(events) == multiset(init) + multiset([last]);
      assert multiset(added)[FetchBlockWait] == multiset([last])[BlockedCallback] by {
        match last
        case BlockedCallback =>
        case StartCallback(b) =>
        case DoneCallback(e) =>
      }
    }
  }

  /** The callbacks one participant of a metadata refresh is assumed to
      receive from `get_registry_blocked`: a start callback telling whether
      it fetches, a blocked callback when it waits for another fetcher, and a
      done callback with the shared outcome. The metadata holder is not part
      of this model, so this calling pattern is an assumption, not derived. */
  function Participation(isFetcher: bool, error: Option<string>): seq<FetchEvent>
  {
    [StartCallback(isFetcher)] + (if isFetcher then [] else [BlockedCallback]) + [DoneCallback(error)]
  }

  /** The fetcher hears start and done (or the failure); a waiter hears the
      wait notice and, only on failure, the failure. */
  lemma ParticipationReplies(isFetcher: bool, error: Option<string>)
    ensures isFetcher && error.None? ==> Replies(Participation(isFetcher, error)) == [FetchStart, FetchDone]
    ensures isFetcher && error.Some? ==> Replies(Participation(isFetcher, error)) == [FetchStart, FetchFailed(error.value)]
    ensures !isFetcher && error.None? ==> Replies(Participation(isFetcher, error)) == [FetchBlockWait]
    ensures !isFetcher && error.Some? ==> Replies(Participation(isFetcher, error)) == [FetchBlockWait, FetchFailed(error.value)]
  {
    AppendEvent([], StartCallback(isFetcher));
    if isFetcher {
      AppendEvent([StartCallback(true)], DoneCallback(error));
    } else {
      AppendEvent([StartCallback(false)], BlockedCallback);
      AppendEvent([StartCallback(false), BlockedCallback], DoneCallback(error));
    }
  }
}
