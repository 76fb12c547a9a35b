/**
 * Several refreshes at once: each loads the remembered aliases, works out those of the cameras it lists, and saves the
 * result over whatever is stored by then. No lock is held from the load to the save.
 */
module AliasRaces {
  import opened AliasStore

  type RefreshId = nat

  /** What is stored, and what each refresh under way has loaded. */
  datatype State = State(stored: map<string, string>, loaded: map<RefreshId, map<string, string>>)

  /** A refresh may also end without saving: nothing is new, or something failed. */
  datatype Step =
    | Load(id: RefreshId)
    | Save(id: RefreshId, aliases: map<string, string>, cameras: seq<Camera>)
    | Leave(id: RefreshId)

  /** What a refresh saves is a reconciliation of what it loaded with the cameras it lists. */
  ghost predicate Enabled(s: State, step: Step) {
    match step
    case Load(id) => id !in s.loaded && Loadable(s.stored)
    case Save(id, aliases, cameras) => id in s.loaded && Extends(s.loaded[id], aliases, cameras)
    case Leave(id) => id in s.loaded
  }

  function Next(s: State, step: Step): State {
    match step
    case Load(id) => s.(loaded := s.loaded[id := s.stored])
    case Save(id, aliases, _) => State(aliases, s.loaded - {id})
    case Leave(id) => s.(loaded := s.loaded - {id})
  }

  ghost predicate Allowed(s: State, steps: seq<Step>)
    decreases |steps|
  {
    steps == [] || (Enabled(s, steps[0]) && Allowed(Next(s, steps[0]), steps[1..]))
  }

  function Run(s: State, steps: seq<Step>): State
    decreases |steps|
  {
    if steps == [] then s else Run(Next(s, steps[0]), steps[1..])
  }

  /** In every run of any number of refreshes no two cameras have one alias stored: what is lost is the memory. */
  lemma {:induction false} StoredStaysInjective(s: State, steps: seq<Step>)
    requires Injective(s.stored) && Allowed(s, steps)
    ensures Injective(Run(s, steps).stored)
    decreases |steps|
  {
    hide Loadable, Injective;
    if steps != [] {
      StoredStaysInjective(Next(s, steps[0]), steps[1..]);
    }
  }

  // ---------- what is remembered

  ghost predicate Keeps(before: map<string, string>, after: map<string, string>) {
    forall id :: id in before ==> id in after && after[id] == before[id]
  }

  ghost predicate Lists(cameras: seq<Camera>, id: string, alias: string) {
    exists i :: 0 <= i < |cameras| && cameras[i] == Camera(id, alias)
  }

  /**
   * Nothing that is stored by now is lost by this save: each alias was already loaded, or its camera, unknown then, is
   * listed and got the same one.
   */
  ghost predicate Harmless(s: State, step: Step) {
    step.Save? ==>
      && step.id in s.loaded
      && forall id :: id in s.stored ==>
           if id in s.loaded[step.id] then s.loaded[step.id][id] == s.stored[id]
           else Lists(step.cameras, id, s.stored[id])
  }

  lemma StepKeepsIff(s: State, step: Step)
    requires Enabled(s, step)
    ensures Keeps(s.stored, Next(s, step).stored) <==> Harmless(s, step)
  {
    hide Loadable;
    if step.Save? {
      var loaded := s.loaded[step.id];
      forall id | id in s.stored && id !in loaded
        ensures id in step.aliases && step.aliases[id] == s.stored[id] <==> Lists(step.cameras, id, s.stored[id])
      {
        if id in step.aliases {
          var i :| 0 <= i < |step.cameras| && step.cameras[i].id == id;
          assert step.cameras[i] == Camera(id, step.aliases[id]);
        }
      }
      assert forall id :: id in s.stored && id in loaded ==> step.aliases[id] == loaded[id];
    }
  }

  /** No step of the run loses or changes an alias that was stored before it. */
  ghost predicate NeverLoses(s: State, steps: seq<Step>)
    decreases |steps|
  {
    steps == [] || (Keeps(s.stored, Next(s, steps[0]).stored) && NeverLoses(Next(s, steps[0]), steps[1..]))
  }

  ghost predicate AllHarmless(s: State, steps: seq<Step>)
    decreases |steps|
  {
    steps == [] || (Harmless(s, steps[0]) && AllHarmless(Next(s, steps[0]), steps[1..]))
  }

  /** Over a whole run of any number of refreshes. */
  lemma {:induction false} NeverLosesIff(s: State, steps: seq<Step>)
    requires Allowed(s, steps)
    ensures NeverLoses(s, steps) <==> AllHarmless(s, steps)
    ensures NeverLoses(s, steps) ==> Keeps(s.stored, Run(s, steps).stored)
    decreases |steps|
  {
    hide Enabled, Harmless;
    if steps != [] {
      StepKeepsIff(s, steps[0]);
      NeverLosesIff(Next(s, steps[0]), steps[1..]);
    }
  }

  // ---------- one at a time

  /** Every save finds stored what its refresh had loaded: nobody else saved anything in between. */
  ghost predicate Undisturbed(s: State, steps: seq<Step>)
    decreases |steps|
  {
    steps == []
    || (&& (steps[0].Save? ==> steps[0].id in s.loaded && s.loaded[steps[0].id] == s.stored)
        && Undisturbed(Next(s, steps[0]), steps[1..]))
  }

  /** Refreshes whose saves do not overlap never change an alias, however many follow each other. */
  lemma {:induction false} UndisturbedNeverLoses(s: State, steps: seq<Step>)
    requires Allowed(s, steps) && Undisturbed(s, steps)
    ensures NeverLoses(s, steps) && Keeps(s.stored, Run(s, steps).stored)
    decreases |steps|
  {
    hide Enabled;
    NeverLosesIff(s, steps);
    if steps != [] {
      StepKeepsIff(s, steps[0]);
      UndisturbedNeverLoses(Next(s, steps[0]), steps[1..]);
    }
  }

  // ---------- two at once

  /** Two refreshes load before either saves, and each lists one camera of the same name. */
  function TwoAtOnce(): seq<Step> {
    [Load(1), Load(2), Save(1, map["7" := "garden"], [Camera("7", "garden")]),
     Save(2, map["8" := "garden"], [Camera("8", "garden")])]
  }

  lemma TwoAtOnceRuns(s: State)
    requires s == State(map[], map[])
    ensures Allowed(s, TwoAtOnce()) && Run(s, TwoAtOnce()).stored == map["8" := "garden"]
    ensures Run(s, TwoAtOnce()[..3]).stored == map["7" := "garden"]
  {
    GardenIsLoadable("7");
    GardenIsLoadable("8");
    hide Loadable, Extends;
    var steps := TwoAtOnce();
    var s1 := Next(s, steps[0]);
    var s2 := Next(s1, steps[1]);
    var s3 := Next(s2, steps[2]);
    var s4 := Next(s3, steps[3]);
    assert steps[1..][0] == steps[1] && steps[1..][1..] == steps[2..] && steps[2..][0] == steps[2];
    assert steps[2..][1..] == steps[3..] && steps[3..][0] == steps[3] && steps[3..][1..] == [];
    assert Allowed(s3, steps[3..]) && Run(s3, steps[3..]) == s4;
    assert Allowed(s2, steps[2..]) && Run(s2, steps[2..]) == s4;
    assert Allowed(s1, steps[1..]) && Run(s1, steps[1..]) == s4;
    var three := steps[..3];
    assert three[1..][1..] == [steps[2]] && [steps[2]][1..] == [] && three[1..][0] == steps[1];
    assert Run(s2, [steps[2]]) == s3;
    assert Run(s1, three[1..]) == s3;
  }

  lemma GardenIsLoadable(id: string)
    ensures var aliases := map[id := "garden"];
            Loadable(aliases) && Extends(map[], aliases, [Camera(id, "garden")]) && Loadable(map[])
  {
    assert Valid("garden");
    assert [Camera(id, "garden")][0].id == id;
  }

  /**
   * The alias saved by the first refresh is gone, the other camera has it now, and every later reconciliation that
   * lists the first camera gives it a different one.
   */
  lemma TwoAtOnceLoseAnAlias(s: State, aliases: map<string, string>, cameras: seq<Camera>)
    requires s == State(map[], map[])
    requires Extends(Run(s, TwoAtOnce()).stored, aliases, cameras) && "7" in aliases
    ensures Run(s, TwoAtOnce()[..3]).stored["7"] == "garden" && aliases["7"] != "garden"
    ensures !NeverLoses(s, TwoAtOnce())
  {
    TwoAtOnceRuns(s);
    hide Run, Next, Loadable, Enabled;
    assert aliases["8"] == "garden";
    if NeverLoses(s, TwoAtOnce()) {
      LosesNothing(s, TwoAtOnce(), 3);
    }
  }

  /** What is stored at one point of such a run is stored at its end. */
  lemma {:induction false} LosesNothing(s: State, steps: seq<Step>, n: nat)
    requires Allowed(s, steps) && NeverLoses(s, steps) && n <= |steps|
    ensures Keeps(Run(s, steps[..n]).stored, Run(s, steps).stored)
    decreases |steps|
  {
    hide Enabled;
    if n == 0 {
      NeverLosesIff(s, steps);
    } else {
      LosesNothing(Next(s, steps[0]), steps[1..], n - 1);
      assert steps[..n][1..] == steps[1..][..n - 1];
    }
  }
}
