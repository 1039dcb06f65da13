/** The progress narrator shown while a generation or refinement request is
    outstanding: a five-stage table of messages whose index a chain of
    timers advances. Real time is not modelled; each timer firing is one
    discrete step, and the pending timer is represented by its delay. */
module LoadingModal {
  import opened Remote

  datatype Stage = Stage(message: string, duration: nat)

  const Stages: seq<Stage> := [
    Stage("Processing your OPM diagram...", 3000),
    Stage("Analyzing diagram structure...", 15000),
    Stage("Extracting OPM elements...", 15000),
    Stage("Generating code with AI...", 120000),
    Stage("Finalizing output...", 10000)
  ]

  const LastStage: nat := |Stages| - 1

  /** The wait the page announces to the user: "up to 3 minutes". */
  const AnnouncedWaitMs: nat := 3 * 60 * 1000

  /** Timer time that has passed when stage `k` is entered: the durations of the stages before it. */
  function ElapsedBefore(k: nat): nat
    requires k <= |Stages|
  {
    if k == 0 then 0 else ElapsedBefore(k - 1) + Stages[k - 1].duration
  }

  /** The last stage is entered after 3000 + 15000 + 15000 + 120000 ms of
      timer time; all five durations together stay under the announced wait. */
  lemma Timeline()
    ensures ElapsedBefore(LastStage) == 153000
    ensures ElapsedBefore(|Stages|) == 163000 < AnnouncedWaitMs
  {
  }

  class Narrator {
    var isOpen: bool
    var stageIndex: int
    var loadingMessage: string
    /** The delay of the timer that is scheduled and not yet fired or cleared. */
    var pending: Option<nat>
    /** Timer time consumed since the modal was last opened. */
    ghost var elapsed: nat

    /** The index stays in range and the message is that stage's; a pending
        timer belongs to an open modal and waits for the current stage's
        duration; an open modal below the last stage always has one; and the
        timer time consumed is that of the stages already passed (all five
        once the last timer has fired). */
    ghost predicate Valid()
      reads this
    {
      && 0 <= stageIndex < |Stages|
      && loadingMessage == Stages[stageIndex].message
      && (pending.Some? ==> isOpen && pending.value == Stages[stageIndex].duration)
      && (isOpen && stageIndex < LastStage ==> pending.Some?)
      && (isOpen && pending.Some? ==> elapsed == ElapsedBefore(stageIndex))
      && (isOpen && pending.None? ==> elapsed == ElapsedBefore(stageIndex + 1))
    }

    /** What the component renders: nothing when closed, else the message. */
    function Rendered(): (r: Option<string>)
      reads this
      requires Valid()
      ensures r.Some? <==> isOpen
      ensures r.Some? ==> r.value == Stages[stageIndex].message
    {
      if isOpen then Some(loadingMessage) else None
    }

    /** The effect body for an open modal: back to stage 0, first timer armed. */
    method Start()
      modifies this
      ensures isOpen && stageIndex == 0 && loadingMessage == Stages[0].message
      ensures pending == Some(Stages[0].duration) && elapsed == 0
      ensures Valid()
    {
      isOpen := true;
      stageIndex := 0;
      loadingMessage := Stages[0].message;
      pending := Some(Stages[0].duration);
      elapsed := 0;
    }

    /** Mounting with the given `isOpen`: initial message and index, and the effect's first run. */
    constructor (open: bool)
      ensures Valid() && isOpen == open && stageIndex == 0
      ensures open ==> pending == Some(3000)
      ensures !open ==> pending == None
    {
      isOpen := false;
      stageIndex := 0;
      loadingMessage := "Processing your OPM diagram...";
      pending := None;
      elapsed := 0;
      new;
      if open {
        Start();
      }
    }

    /** A change of the `isOpen` prop. The effect depends only on it, so an
        unchanged value does nothing; a change first runs the old effect's
        cleanup (clearing the pending timer), then the new effect, which
        restarts the stages when opening and does nothing when closing. */
    method SetOpen(open: bool)
      requires Valid()
      modifies this
      ensures Valid() && isOpen == open
      ensures open == old(isOpen) ==> stageIndex == old(stageIndex) && pending == old(pending)
      ensures open && !old(isOpen) ==> stageIndex == 0 && loadingMessage == Stages[0].message && pending == Some(3000)
      ensures !open && old(isOpen) ==> pending == None && stageIndex == old(stageIndex)
    {
      if open == isOpen {
        return;
      }
      pending := None;
      if open {
        Start();
      } else {
        isOpen := false;
      }
    }

    /** The pending timer fires (`processStages`). Below the last stage the
        index advances by exactly one and the next timer waits for the
        stage just entered; at the last stage nothing changes and nothing
        is scheduled. */
    method Fire()
      requires Valid() && pending.Some?
      modifies this
      ensures Valid() && isOpen
      ensures old(stageIndex) < LastStage ==>
                stageIndex == old(stageIndex) + 1 && loadingMessage == Stages[stageIndex].message
                && pending == Some(Stages[stageIndex].duration)
      ensures old(stageIndex) == LastStage ==>
                stageIndex == old(stageIndex) && loadingMessage == old(loadingMessage) && pending == None
      ensures elapsed == old(elapsed) + old(pending).value
    {
      elapsed := elapsed + pending.value;
      if stageIndex < |Stages| - 1 {
        stageIndex := stageIndex + 1;
        loadingMessage := Stages[stageIndex].message;
        pending := Some(Stages[stageIndex].duration);
      } else {
        pending := None;
      }
    }
  }

  /** Opening and letting every timer fire walks through the five messages,
      reaches the last one after 153000 ms of timer time, and stops
      scheduling after 163000 ms. */
  method FullRun()
  {
    var m := new Narrator(true);
    assert |Stages| == 5 && LastStage == 4;
    m.Fire();
    m.Fire();
    m.Fire();
    m.Fire();
    assert m.stageIndex == LastStage && m.pending == Some(10000);
    Timeline();
    assert m.elapsed == 153000;
    assert m.Rendered() == Some("Finalizing output...");
    m.Fire();
    assert m.stageIndex == LastStage && m.pending == None && m.elapsed == 163000;
    m.SetOpen(false);
    assert m.Rendered() == None;
  }
}
