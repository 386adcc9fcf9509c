/** The integration runner's ordering and exception policy, proved of the pipeline functions. */
module PipelineProperties {
  import opened Remote
  import opened Wrappers
  import opened Results
  import opened Pipeline

  /** The calls made before the guarded region. */
  predicate IsSetupCall(c: Call)
  {
    c == StartNewIntegration || c == LastIntegrationResult || c.CreateDirectory?
  }

  /** What setup does, on its own. */
  lemma SetupFacts(p: Plan)
    ensures var s := Setup(p);
      |s.events| >= 1 && s.events[0] == Called(StartNewIntegration)
      && (forall e :: e in s.events ==> e.Called? && IsSetupCall(e.call))
    ensures var s := Setup(p);
      s.error.Some? ==> IsSetupCall(s.error.value.thrownBy) && s.error.value.thrownBy in p.faults
    ensures var s := Setup(p);
      s.error.None? ==> |s.events| >= 2 && s.events[1] == Called(LastIntegrationResult)
  {
  }

  /**
   * When setup fails, the integration makes setup calls only, lets the setup
   * call's own exception escape, and builds, catches and commits nothing.
   */
  lemma FailedSetup(p: Plan, condition: BuildCondition, last: IntegrationResult?, current: IntegrationResult?)
    requires !SetupSucceeds(p)
    ensures var o := Integration(p, condition, last, current);
      (forall e :: e in o.events ==> e.Called? && IsSetupCall(e.call))
      && o.error.Some? && IsSetupCall(o.error.value.thrownBy) && o.error.value.thrownBy in p.faults
      && o.caught.None? && o.status == Unknown && o.modifications == [] && !o.committed
  {
    SetupFacts(p);
  }

  /** Once setup succeeds, an integration is setup, start mark, guarded region, end mark, post-build. */
  lemma Shape(p: Plan, condition: BuildCondition, last: IntegrationResult?, current: IntegrationResult?)
    returns (g: Guarded, post: Step)
    requires SetupSucceeds(p)
    ensures g == GuardedRegion(p.faults, condition, p.observed, p.buildStatus, last, current)
    ensures post == PostBuild(p.faults, g.status, p.publishExceptions)
    ensures var o := Integration(p, condition, last, current);
      o.events == (Setup(p).events + [StartTimeMarked]) + g.events + ([EndTimeMarked] + post.events)
      && o.error == post.error && o.status == g.status && o.caught == g.caught && o.modifications == g.modifications
      && o.committed == (ShouldPublishResult(g.status, p.publishExceptions) && PublishResults !in p.faults
                         && FinishIntegration !in p.faults)
  {
    g := GuardedRegion(p.faults, condition, p.observed, p.buildStatus, last, current);
    post := PostBuild(p.faults, g.status, p.publishExceptions);
  }

  /** Something in a part that precedes another part happens before everything in it. */
  lemma BeforeAcross(xs: seq<Event>, ys: seq<Event>, a: Event, b: Event)
    requires a in xs && b in ys
    ensures Before(xs + ys, a, b)
  {
    var i :| 0 <= i < |xs| && xs[i] == a;
    var j :| 0 <= j < |ys| && ys[j] == b;
    assert (xs + ys)[i] == a && (xs + ys)[|xs| + j] == b;
  }

  /** Order within a part is kept in the whole. */
  lemma BeforeWithin(pre: seq<Event>, xs: seq<Event>, suf: seq<Event>, a: Event, b: Event)
    requires Before(xs, a, b)
    ensures Before(pre + xs + suf, a, b)
  {
    var i, j :| 0 <= i < j < |xs| && xs[i] == a && xs[j] == b;
    assert (pre + xs + suf)[|pre| + i] == a && (pre + xs + suf)[|pre| + j] == b;
  }

  /** The events after the guarded region. */
  predicate InPost(e: Event)
  {
    e == ActivitySet(Sleeping) || e == Called(LabelSourceControl) || e == Called(PublishResults)
    || e == Called(FinishIntegration)
  }

  /** The guarded region begins by checking for modifications over the window (last, current). */
  lemma GuardStart(faults: set<Call>, condition: BuildCondition, observed: seq<Modification>,
                   buildStatus: IntegrationStatus, last: IntegrationResult?, current: IntegrationResult?)
    ensures var g := GuardedRegion(faults, condition, observed, buildStatus, last, current);
      |g.events| >= 2 && g.events[0] == ActivitySet(CheckingModifications)
      && g.events[1] == ModificationsRequested(last, current)
      && (forall e :: e in g.events ==> InGuard(e))
      && (forall e :: e in g.events && e.ModificationsRequested? ==> e == ModificationsRequested(last, current))
  {
  }

  /** The build stages of the guarded region and when each is reached. */
  lemma GuardBuild(faults: set<Call>, condition: BuildCondition, observed: seq<Modification>,
                   buildStatus: IntegrationStatus, last: IntegrationResult?, current: IntegrationResult?)
    ensures var g := GuardedRegion(faults, condition, observed, buildStatus, last, current);
      (ActivitySet(Building) in g.events || Called(Prebuild) in g.events || Called(GetSource) in g.events
       || Called(Run) in g.events)
      <==> GetModifications !in faults && ShouldRunBuild(condition, observed)
    ensures var g := GuardedRegion(faults, condition, observed, buildStatus, last, current);
      GetModifications !in faults && ShouldRunBuild(condition, observed)
      ==> |g.events| >= 4 && g.events[2] == ActivitySet(Building) && g.events[3] == Called(Prebuild)
          && (Called(GetSource) in g.events <==> Prebuild !in faults)
          && (Prebuild !in faults ==> |g.events| >= 5 && g.events[4] == Called(GetSource))
          && (Called(Run) in g.events <==> Prebuild !in faults && GetSource !in faults)
          && (Prebuild !in faults && GetSource !in faults ==> |g.events| == 6 && g.events[5] == Called(Run))
  {
  }

  /** The guarded region catches the exception of the first guarded call that throws, and only that. */
  lemma GuardCatch(faults: set<Call>, condition: BuildCondition, observed: seq<Modification>,
                   buildStatus: IntegrationStatus, last: IntegrationResult?, current: IntegrationResult?)
    ensures var g := GuardedRegion(faults, condition, observed, buildStatus, last, current);
      g.caught.Some? ==> g.status == Exception && IsGuarded(g.caught.value.thrownBy)
                         && g.caught.value.thrownBy in faults && Attempted(g.events, g.caught.value.thrownBy)
    ensures var g := GuardedRegion(faults, condition, observed, buildStatus, last, current);
      forall c :: IsGuarded(c) && c in faults && Attempted(g.events, c) ==> g.caught.Some?
  {
    var g := GuardedRegion(faults, condition, observed, buildStatus, last, current);
    assert g.events[1] in g.events;
  }

  /** What happens after the guarded region, on its own. */
  lemma PostFacts(faults: set<Call>, status: IntegrationStatus, publishExceptions: bool)
    ensures var post := PostBuild(faults, status, publishExceptions);
      var publish := ShouldPublishResult(status, publishExceptions);
      (forall e :: e in post.events ==> InPost(e))
      && (Called(LabelSourceControl) in post.events <==> publish)
      && (Called(PublishResults) in post.events <==> publish)
      && (Called(FinishIntegration) in post.events <==> publish && PublishResults !in faults)
      && (publish ==> |post.events| >= 2 && post.events[0] == Called(LabelSourceControl)
                      && post.events[1] == Called(PublishResults))
      && (publish && PublishResults !in faults ==> |post.events| >= 3 && post.events[2] == Called(FinishIntegration))
    ensures var post := PostBuild(faults, status, publishExceptions);
      (post.error.Some? <==> (ShouldPublishResult(status, publishExceptions)
                             && (PublishResults in faults || FinishIntegration in faults)))
      && (post.error.Some? ==> post.error.value.thrownBy in faults
                               && post.error.value.thrownBy in {PublishResults, FinishIntegration}
                               && ActivitySet(Sleeping) !in post.events)
      && (post.error.None? ==> |post.events| >= 1 && post.events[|post.events| - 1] == ActivitySet(Sleeping))
  {
  }

  /**
   * Only the calls outside the guarded region can make an integration throw:
   * never a guarded call, never labelling; with no fault outside them the
   * integration always returns.
   */
  lemma ExceptionsContained(p: Plan, condition: BuildCondition, last: IntegrationResult?, current: IntegrationResult?)
    ensures var o := Integration(p, condition, last, current);
      o.error.Some? ==> o.error.value.thrownBy in p.faults && !IsGuarded(o.error.value.thrownBy)
                        && o.error.value.thrownBy != LabelSourceControl
    ensures (forall c :: c in p.faults ==> IsGuarded(c) || c == LabelSourceControl)
            ==> Integration(p, condition, last, current).error.None?
  {
    SetupFacts(p);
    if SetupSucceeds(p) {
      var g, post := Shape(p, condition, last, current);
      PostFacts(p.faults, g.status, p.publishExceptions);
    } else {
      FailedSetup(p, condition, last, current);
    }
  }

  /**
   * An exception from a guarded call is caught: it is stored on the result,
   * whose status becomes Exception, and the end time is still marked.
   * Conversely, once setup has succeeded, any guarded call that is made and
   * throws is caught.
   */
  lemma GuardedExceptionCaptured(p: Plan, condition: BuildCondition, last: IntegrationResult?, current: IntegrationResult?)
    ensures var o := Integration(p, condition, last, current);
      o.caught.Some? ==> o.status == Exception && IsGuarded(o.caught.value.thrownBy)
                         && o.caught.value.thrownBy in p.faults && Attempted(o.events, o.caught.value.thrownBy)
                         && EndTimeMarked in o.events
    ensures var o := Integration(p, condition, last, current);
      forall c :: SetupSucceeds(p) && IsGuarded(c) && c in p.faults && Attempted(o.events, c) ==> o.caught.Some?
  {
    if SetupSucceeds(p) {
      var g := GuardEventsOnly(p, condition, last, current);
      var o := Integration(p, condition, last, current);
      GuardCatch(p.faults, condition, p.observed, p.buildStatus, last, current);
      forall c | IsGuarded(c) ensures Attempted(o.events, c) <==> Attempted(g.events, c) {
        if c == GetModifications {
          if e :| e in o.events && e.ModificationsRequested? {
            assert InGuard(e);
          }
          if e :| e in g.events && e.ModificationsRequested? {
            assert InGuard(e);
          }
        } else {
          assert InGuard(Called(c));
        }
      }
    } else {
      FailedSetup(p, condition, last, current);
    }
  }

  /** In setup, start mark, guard, end mark, post-build, an event of the guard occurs only in the guard. */
  lemma GuardPart(setup: seq<Event>, g: seq<Event>, post: seq<Event>, e: Event)
    requires forall x :: x in setup ==> x.Called? && IsSetupCall(x.call)
    requires forall x :: x in post ==> InPost(x)
    requires InGuard(e)
    ensures e in (setup + [StartTimeMarked]) + g + ([EndTimeMarked] + post) <==> e in g
  {
  }

  /** In an integration that got past setup, an event of the guarded region occurs iff the region has it. */
  lemma GuardEventsOnly(p: Plan, condition: BuildCondition, last: IntegrationResult?, current: IntegrationResult?)
    returns (g: Guarded)
    requires SetupSucceeds(p)
    ensures g == GuardedRegion(p.faults, condition, p.observed, p.buildStatus, last, current)
    ensures forall e :: InGuard(e) ==> (e in Integration(p, condition, last, current).events <==> e in g.events)
  {
    var post;
    g, post := Shape(p, condition, last, current);
    SetupFacts(p);
    PostFacts(p.faults, g.status, p.publishExceptions);
    forall e | InGuard(e) ensures e in Integration(p, condition, last, current).events <==> e in g.events {
      GuardPart(Setup(p).events, g.events, post.events, e);
    }
  }

  /**
   * The build stages run exactly when the result says a build should run,
   * after setup and the modification check succeeded.
   */
  lemma BuildOnlyWhenShouldRunBuild(p: Plan, condition: BuildCondition, last: IntegrationResult?, current: IntegrationResult?)
    ensures var o := Integration(p, condition, last, current);
      (ActivitySet(Building) in o.events || Called(Prebuild) in o.events || Called(GetSource) in o.events
       || Called(Run) in o.events)
      <==> SetupSucceeds(p) && GetModifications !in p.faults && ShouldRunBuild(condition, p.observed)
  {
    GuardBuild(p.faults, condition, p.observed, p.buildStatus, last, current);
    if SetupSucceeds(p) {
      var g := GuardEventsOnly(p, condition, last, current);
    } else {
      FailedSetup(p, condition, last, current);
      SetupFacts(p);
    }
  }

  /**
   * The build stages run in order, each only after the previous one
   * succeeded: Building is set, then Prebuild, then GetSource, then Run.
   */
  lemma BuildStageOrder(p: Plan, condition: BuildCondition, last: IntegrationResult?, current: IntegrationResult?)
    ensures var o := Integration(p, condition, last, current);
      Called(Prebuild) in o.events ==> Before(o.events, ActivitySet(Building), Called(Prebuild))
    ensures var o := Integration(p, condition, last, current);
      Called(GetSource) in o.events ==> Prebuild !in p.faults && Before(o.events, Called(Prebuild), Called(GetSource))
    ensures var o := Integration(p, condition, last, current);
      Called(Run) in o.events ==> GetSource !in p.faults && Before(o.events, Called(GetSource), Called(Run))
  {
    GuardBuild(p.faults, condition, p.observed, p.buildStatus, last, current);
    if SetupSucceeds(p) {
      var g, post := Shape(p, condition, last, current);
      var g' := GuardEventsOnly(p, condition, last, current);
      var pre, suf := Setup(p).events + [StartTimeMarked], [EndTimeMarked] + post.events;
      if GetModifications !in p.faults && ShouldRunBuild(condition, p.observed) {
        BeforeWithin(pre, g.events, suf, ActivitySet(Building), Called(Prebuild));
        if Prebuild !in p.faults {
          BeforeWithin(pre, g.events, suf, Called(Prebuild), Called(GetSource));
          if GetSource !in p.faults {
            BeforeWithin(pre, g.events, suf, Called(GetSource), Called(Run));
          }
        }
      }
    } else {
      FailedSetup(p, condition, last, current);
      SetupFacts(p);
    }
  }

  /** The marks around the guard, on the parts of an integration that got past setup. */
  lemma MarkParts(setup: seq<Event>, g: seq<Event>, post: seq<Event>)
    requires forall x :: x in setup ==> x.Called? && IsSetupCall(x.call)
    requires forall x :: x in post ==> InPost(x)
    ensures var whole := (setup + [StartTimeMarked]) + g + ([EndTimeMarked] + post);
      forall e :: e in whole && InGuard(e) ==> Before(whole, StartTimeMarked, e) && Before(whole, e, EndTimeMarked)
  {
    var pre, suf := setup + [StartTimeMarked], [EndTimeMarked] + post;
    var whole := pre + g + suf;
    assert whole == pre + (g + suf);
    forall e | e in whole && InGuard(e)
      ensures Before(whole, StartTimeMarked, e) && Before(whole, e, EndTimeMarked)
    {
      GuardPart(setup, g, post, e);
      BeforeAcross(pre, g + suf, StartTimeMarked, e);
      BeforeAcross(pre + g, suf, e, EndTimeMarked);
    }
  }

  /**
   * The start time is marked before the guarded region and the end time after
   * it, both exactly when setup succeeded, whatever the region caught.
   */
  lemma TimesMarkedAroundGuard(p: Plan, condition: BuildCondition, last: IntegrationResult?, current: IntegrationResult?)
    ensures var o := Integration(p, condition, last, current);
      (StartTimeMarked in o.events <==> SetupSucceeds(p)) && (EndTimeMarked in o.events <==> SetupSucceeds(p))
    ensures var o := Integration(p, condition, last, current);
      forall e :: e in o.events && InGuard(e) ==>
        Before(o.events, StartTimeMarked, e) && Before(o.events, e, EndTimeMarked)
  {
    SetupFacts(p);
    if SetupSucceeds(p) {
      var g, post := Shape(p, condition, last, current);
      PostFacts(p.faults, g.status, p.publishExceptions);
      MarkParts(Setup(p).events, g.events, post.events);
    } else {
      FailedSetup(p, condition, last, current);
    }
  }

  /** In setup, start mark, guard, end mark, post-build, an event after the guard occurs only there. */
  lemma PostPart(setup: seq<Event>, g: seq<Event>, post: seq<Event>, e: Event)
    requires forall x :: x in setup ==> x.Called? && IsSetupCall(x.call)
    requires forall x :: x in g ==> InGuard(x)
    requires InPost(e)
    ensures e in (setup + [StartTimeMarked]) + g + ([EndTimeMarked] + post) <==> e in post
  {
  }

  /**
   * Labelling, publishing and finishing happen exactly when the result is
   * to be published, and finishing only once publishing returned; the result
   * is committed as the last one exactly when finishing was called and
   * returned.
   */
  lemma PublishedExactlyWhenShouldPublish(p: Plan, condition: BuildCondition, last: IntegrationResult?,
                                          current: IntegrationResult?)
    ensures var o := Integration(p, condition, last, current);
      var publish := SetupSucceeds(p) && ShouldPublishResult(o.status, p.publishExceptions);
      (Called(LabelSourceControl) in o.events <==> publish)
      && (Called(PublishResults) in o.events <==> publish)
      && (Called(FinishIntegration) in o.events <==> publish && PublishResults !in p.faults)
    ensures var o := Integration(p, condition, last, current);
      o.committed <==> Called(FinishIntegration) in o.events && FinishIntegration !in p.faults
  {
    if SetupSucceeds(p) {
      var g, post := Shape(p, condition, last, current);
      SetupFacts(p);
      GuardStart(p.faults, condition, p.observed, p.buildStatus, last, current);
      PostFacts(p.faults, g.status, p.publishExceptions);
      PostPart(Setup(p).events, g.events, post.events, Called(LabelSourceControl));
      PostPart(Setup(p).events, g.events, post.events, Called(PublishResults));
      PostPart(Setup(p).events, g.events, post.events, Called(FinishIntegration));
    } else {
      FailedSetup(p, condition, last, current);
      SetupFacts(p);
    }
  }

  /** Order within the post-build part is kept in the whole integration. */
  lemma PostOrderParts(setup: seq<Event>, g: seq<Event>, post: seq<Event>, a: Event, b: Event)
    requires Before(post, a, b)
    ensures Before((setup + [StartTimeMarked]) + g + ([EndTimeMarked] + post), a, b)
  {
    var pre := (setup + [StartTimeMarked]) + g + [EndTimeMarked];
    assert (setup + [StartTimeMarked]) + g + ([EndTimeMarked] + post) == pre + post + [];
    BeforeWithin(pre, post, [], a, b);
  }

  /** Source control is labelled before the results are published, and those before the integration is finished. */
  lemma PublishOrder(p: Plan, condition: BuildCondition, last: IntegrationResult?, current: IntegrationResult?)
    ensures var o := Integration(p, condition, last, current);
      Called(LabelSourceControl) in o.events ==> Before(o.events, Called(LabelSourceControl), Called(PublishResults))
    ensures var o := Integration(p, condition, last, current);
      Called(FinishIntegration) in o.events ==> Before(o.events, Called(PublishResults), Called(FinishIntegration))
  {
    PublishedExactlyWhenShouldPublish(p, condition, last, current);
    if SetupSucceeds(p) {
      var g, post := Shape(p, condition, last, current);
      PostFacts(p.faults, g.status, p.publishExceptions);
      if ShouldPublishResult(g.status, p.publishExceptions) {
        assert Before(post.events, Called(LabelSourceControl), Called(PublishResults)) by {
          assert post.events[0] == Called(LabelSourceControl) && post.events[1] == Called(PublishResults);
        }
        PostOrderParts(Setup(p).events, g.events, post.events, Called(LabelSourceControl), Called(PublishResults));
        if PublishResults !in p.faults {
          assert Before(post.events, Called(PublishResults), Called(FinishIntegration)) by {
            assert post.events[1] == Called(PublishResults) && post.events[2] == Called(FinishIntegration);
          }
          PostOrderParts(Setup(p).events, g.events, post.events, Called(PublishResults), Called(FinishIntegration));
        }
      }
    }
  }

  /** A result whose status is Unknown is never published, nor an Exception result unless the target asks. */
  lemma UnknownNeverPublished(p: Plan, condition: BuildCondition, last: IntegrationResult?, current: IntegrationResult?)
    ensures var o := Integration(p, condition, last, current);
      Called(PublishResults) in o.events ==> o.status != Unknown && (o.status == Exception ==> p.publishExceptions)
  {
    PublishedExactlyWhenShouldPublish(p, condition, last, current);
  }

  /** Setup, the guarded region and post-build never look at whether labelling throws. */
  lemma StagesIgnoreLabelling(p: Plan, condition: BuildCondition, last: IntegrationResult?, current: IntegrationResult?,
                              status: IntegrationStatus)
    ensures var p1, p2 := p.(faults := p.faults + {LabelSourceControl}), p.(faults := p.faults - {LabelSourceControl});
      Setup(p1) == Setup(p2) && SetupDirectories(p1) == SetupDirectories(p2)
      && GuardedRegion(p1.faults, condition, p.observed, p.buildStatus, last, current)
         == GuardedRegion(p2.faults, condition, p.observed, p.buildStatus, last, current)
      && PostBuild(p1.faults, status, p.publishExceptions) == PostBuild(p2.faults, status, p.publishExceptions)
  {
    var p1, p2 := p.(faults := p.faults + {LabelSourceControl}), p.(faults := p.faults - {LabelSourceControl});
    assert EnsureDirectory(p1.faults, p1.existing, p1.workingDirectory)
           == EnsureDirectory(p2.faults, p2.existing, p2.workingDirectory);
    assert EnsureDirectory(p1.faults, p1.existing + {p1.workingDirectory}, p1.artifactDirectory)
           == EnsureDirectory(p2.faults, p2.existing + {p2.workingDirectory}, p2.artifactDirectory);
  }

  /**
   * A failure to label source control is swallowed: the integration goes on
   * exactly as if labelling had succeeded.
   */
  lemma LabellingFailureSwallowed(p: Plan, condition: BuildCondition, last: IntegrationResult?, current: IntegrationResult?)
    ensures Integration(p.(faults := p.faults + {LabelSourceControl}), condition, last, current)
            == Integration(p.(faults := p.faults - {LabelSourceControl}), condition, last, current)
  {
    var p2 := p.(faults := p.faults - {LabelSourceControl});
    var g := GuardedRegion(p2.faults, condition, p.observed, p.buildStatus, last, current);
    StagesIgnoreLabelling(p, condition, last, current, g.status);
  }

  /**
   * When an integration returns normally, the last thing it did was to put
   * the target to sleep; when it throws, the target is not put to sleep.
   */
  lemma SleepingAfterNormalReturn(p: Plan, condition: BuildCondition, last: IntegrationResult?,
                                  current: IntegrationResult?, initial: ProjectActivity)
    ensures var o := Integration(p, condition, last, current);
      o.error.None? ==> |o.events| >= 1 && o.events[|o.events| - 1] == ActivitySet(Sleeping)
                        && ActivityAfter(o.events, initial) == Sleeping
    ensures var o := Integration(p, condition, last, current);
      o.error.Some? ==> ActivitySet(Sleeping) !in o.events
  {
    if SetupSucceeds(p) {
      var g, post := Shape(p, condition, last, current);
      SetupFacts(p);
      GuardStart(p.faults, condition, p.observed, p.buildStatus, last, current);
      PostFacts(p.faults, g.status, p.publishExceptions);
      PostPart(Setup(p).events, g.events, post.events, ActivitySet(Sleeping));
    } else {
      FailedSetup(p, condition, last, current);
      SetupFacts(p);
    }
  }

  /** The calls begin with starting a new result and then reading the last one. */
  lemma CallsBegin(p: Plan, condition: BuildCondition, last: IntegrationResult?, current: IntegrationResult?)
    ensures var o := Integration(p, condition, last, current);
      |o.events| >= 1 && o.events[0] == Called(StartNewIntegration)
      && (LastIntegrationResult !in p.faults && StartNewIntegration !in p.faults
          ==> |o.events| >= 2 && o.events[1] == Called(LastIntegrationResult))
  {
    SetupFacts(p);
    if SetupSucceeds(p) {
      var g, post := Shape(p, condition, last, current);
    } else {
      FailedSetup(p, condition, last, current);
    }
  }

  /** Orderings around the modification check, on the parts of an integration that got past setup. */
  lemma WindowParts(setup: seq<Event>, g: seq<Event>, post: seq<Event>, m: Event)
    requires |setup| >= 2 && setup[1] == Called(LastIntegrationResult)
    requires forall x :: x in setup ==> x.Called? && IsSetupCall(x.call)
    requires |g| >= 2 && g[0] == ActivitySet(CheckingModifications) && g[1] == m
    requires forall x :: x in post ==> InPost(x)
    ensures var whole := (setup + [StartTimeMarked]) + g + ([EndTimeMarked] + post);
      Before(whole, ActivitySet(CheckingModifications), m) && Before(whole, Called(LastIntegrationResult), m)
      && forall e :: e in whole && e.ModificationsRequested? ==> e in g
  {
    var pre, suf := setup + [StartTimeMarked], [EndTimeMarked] + post;
    var whole := pre + g + suf;
    assert whole[|pre|] == ActivitySet(CheckingModifications) && whole[|pre| + 1] == m;
    assert whole[1] == Called(LastIntegrationResult);
  }

  /**
   * Modifications are asked for exactly when setup succeeded, over the window
   * from the last result to the new one, after the target is set to checking
   * modifications and after the last result was read.
   */
  lemma ModificationWindow(p: Plan, condition: BuildCondition, last: IntegrationResult?, current: IntegrationResult?)
    ensures var o := Integration(p, condition, last, current);
      forall e :: e in o.events && e.ModificationsRequested? ==> e == ModificationsRequested(last, current)
    ensures var o := Integration(p, condition, last, current);
      SetupSucceeds(p) ==>
        Before(o.events, ActivitySet(CheckingModifications), ModificationsRequested(last, current))
        && Before(o.events, Called(LastIntegrationResult), ModificationsRequested(last, current))
    ensures var o := Integration(p, condition, last, current);
      Attempted(o.events, GetModifications) <==> SetupSucceeds(p)
  {
    SetupFacts(p);
    if SetupSucceeds(p) {
      var g, post := Shape(p, condition, last, current);
      GuardStart(p.faults, condition, p.observed, p.buildStatus, last, current);
      PostFacts(p.faults, g.status, p.publishExceptions);
      WindowParts(Setup(p).events, g.events, post.events, ModificationsRequested(last, current));
    } else {
      FailedSetup(p, condition, last, current);
    }
  }

  /** The activity after two runs of events: the second run's, starting from the first's. */
  lemma {:induction false} ActivityAfterConcat(xs: seq<Event>, ys: seq<Event>, initial: ProjectActivity)
    ensures ActivityAfter(xs + ys, initial) == ActivityAfter(ys, ActivityAfter(xs, initial))
    decreases |ys|
  {
    if ys == [] {
      assert xs + ys == xs;
    } else {
      var front := ys[..|ys| - 1];
      assert (xs + ys)[..|xs + ys| - 1] == xs + front;
      ActivityAfterConcat(xs, front, initial);
    }
  }

  /** Events that set no activity leave it as it was. */
  lemma {:induction false} NoActivity(events: seq<Event>, initial: ProjectActivity)
    requires forall e :: e in events ==> !e.ActivitySet?
    ensures ActivityAfter(events, initial) == initial
  {
    if events != [] {
      assert events[|events| - 1] in events;
      var front := events[..|events| - 1];
      assert forall e :: e in front ==> e in events;
      NoActivity(front, initial);
    }
  }

  /** The guarded region leaves the target building if it built, otherwise checking modifications. */
  lemma GuardActivity(faults: set<Call>, condition: BuildCondition, observed: seq<Modification>,
                      buildStatus: IntegrationStatus, last: IntegrationResult?, current: IntegrationResult?,
                      initial: ProjectActivity)
    ensures ActivityAfter(GuardedRegion(faults, condition, observed, buildStatus, last, current).events, initial)
            == if GetModifications !in faults && ShouldRunBuild(condition, observed) then Building
               else CheckingModifications
  {
    var g := GuardedRegion(faults, condition, observed, buildStatus, last, current);
    var asked := [ActivitySet(CheckingModifications), ModificationsRequested(last, current)];
    assert ActivityAfter(asked, initial) == CheckingModifications by {
      assert asked[..1] == [ActivitySet(CheckingModifications)];
    }
    if GetModifications !in faults && ShouldRunBuild(condition, observed) {
      var head := asked + [ActivitySet(Building)];
      var tail := g.events[|head|..];
      assert g.events == head + tail;
      assert ActivityAfter(head, initial) == Building;
      NoActivity(tail, Building);
      ActivityAfterConcat(head, tail, initial);
    }
  }

  /** The activity after an integration that got past setup is what post-build makes of the guard's. */
  lemma ActivityOfParts(setup: seq<Event>, g: seq<Event>, post: seq<Event>, initial: ProjectActivity)
    requires forall e :: e in setup ==> e.Called?
    ensures ActivityAfter((setup + [StartTimeMarked]) + g + ([EndTimeMarked] + post), initial)
            == ActivityAfter([EndTimeMarked] + post, ActivityAfter(g, initial))
  {
    var pre := setup + [StartTimeMarked];
    assert forall e :: e in pre ==> !e.ActivitySet?;
    NoActivity(pre, initial);
    ActivityAfterConcat(pre, g, initial);
    ActivityAfterConcat(pre + g, [EndTimeMarked] + post, initial);
  }

  /** Post-build leaves the target sleeping when it returns, and as it was when it throws. */
  lemma PostActivity(faults: set<Call>, status: IntegrationStatus, publishExceptions: bool, initial: ProjectActivity)
    ensures var post := PostBuild(faults, status, publishExceptions);
      ActivityAfter([EndTimeMarked] + post.events, initial) == if post.error.None? then Sleeping else initial
  {
    var post := PostBuild(faults, status, publishExceptions);
    PostFacts(faults, status, publishExceptions);
    var suf := [EndTimeMarked] + post.events;
    if post.error.None? {
      assert suf[|suf| - 1] == post.events[|post.events| - 1];
    } else {
      assert forall e :: e in suf ==> !e.ActivitySet?;
      NoActivity(suf, initial);
    }
  }

  /**
   * The target's activity after an integration: as it was if setup threw,
   * sleeping if the integration returned, otherwise what the guarded region
   * left (building if it built, checking modifications if not).
   */
  lemma IntegrationActivity(p: Plan, condition: BuildCondition, last: IntegrationResult?, current: IntegrationResult?,
                            initial: ProjectActivity)
    ensures var o := Integration(p, condition, last, current);
      ActivityAfter(o.events, initial)
      == if !SetupSucceeds(p) then initial
         else if o.error.None? then Sleeping
         else if GetModifications !in p.faults && ShouldRunBuild(condition, p.observed) then Building
         else CheckingModifications
  {
    SetupFacts(p);
    if SetupSucceeds(p) {
      var g, post := Shape(p, condition, last, current);
      ActivityOfParts(Setup(p).events, g.events, post.events, initial);
      GuardActivity(p.faults, condition, p.observed, p.buildStatus, last, current, initial);
      PostActivity(p.faults, g.status, p.publishExceptions, ActivityAfter(g.events, initial));
    } else {
      FailedSetup(p, condition, last, current);
      NoActivity(Setup(p).events, initial);
    }
  }

  /**
   * A guarded failure on a target that does not publish exceptions: the
   * result is stored with status Exception, nothing is labelled, published or
   * committed, nothing escapes and the target goes to sleep.
   */
  lemma ExceptionWithoutFlagNotPublished(p: Plan, condition: BuildCondition, last: IntegrationResult?,
                                         current: IntegrationResult?, initial: ProjectActivity)
    requires SetupSucceeds(p) && Integration(p, condition, last, current).caught.Some? && !p.publishExceptions
    ensures var o := Integration(p, condition, last, current);
      o.status == Exception && IsGuarded(o.caught.value.thrownBy)
      && Called(LabelSourceControl) !in o.events && Called(PublishResults) !in o.events && !o.committed
      && o.error.None? && ActivityAfter(o.events, initial) == Sleeping
  {
    GuardedExceptionCaptured(p, condition, last, current);
    PublishedExactlyWhenShouldPublish(p, condition, last, current);
    SleepingAfterNormalReturn(p, condition, last, current, initial);
  }
}
