/** Client code replaying the repository's own test scenarios against the
    contracts of the model: each method drives the classes and functions
    only through their specifications and asserts the outcome the tests
    expect. */
module TimelineScenarios {
  import opened Wrappers
  import opened NumberInput
  import opened PlayControls
  import opened Playhead
  import opened SyncScroll

  /** The field the number-input tests render: default 0, range [0, 2000], step 10. */
  method TestField(min: real) returns (f: NumberInputField)
    ensures fresh(f) && f.Valid() && f.value == 0.0 && !f.isTyping
    ensures f.defaultValue == 0.0 && f.min == min && f.max == 2000.0 && f.step == 10.0
  {
    f := new NumberInputField(0.0, min, 2000.0, 10.0);
  }

  /** Typing a number key by key: each key marks the user as typing, so the
      change events it causes call nobody. */
  method TypeNumber(f: NumberInputField, x: real)
    requires f.Valid()
    modifies f
    ensures f.Valid() && f.value == x && f.isTyping
    ensures f.defaultValue == old(f.defaultValue) && f.min == old(f.min) && f.max == old(f.max)
  {
    var e := f.HandleInputKeyDown(Other);
    e := f.HandleInputChange(x);
    assert e == None;
  }

  method TypingThenEnterCommits()
  {
    var f := TestField(0.0);
    TypeNumber(f, 300.0);
    RoundToStepOfMultiple(30, 10.0);
    var e := f.HandleInputKeyDown(Enter);
    assert e == Some(300.0) && !f.isTyping;
  }

  method TypingThenBlurCommits()
  {
    var f := TestField(0.0);
    TypeNumber(f, 300.0);
    RoundToStepOfMultiple(30, 10.0);
    var e := f.HandleInputBlur();
    assert e == Some(300.0);
  }

  method ArrowsStepFromDefault()
  {
    var f := TestField(0.0);
    var e := f.HandleInputKeyDown(ArrowUp);
    assert e == Some(10.0);
    e := f.HandleInputKeyDown(ArrowDown);
    assert e == Some(0.0);
  }

  method EscapeRevertsSilently()
  {
    var f := TestField(0.0);
    TypeNumber(f, 300.0);
    ValidateCommittedDefaultIsQuiet(0, 0.0, 2000.0, 10.0);
    var e := f.HandleInputKeyDown(Escape);
    assert e == None && f.value == 0.0 && !f.isTyping;
  }

  method OverMaxCommitsMax()
  {
    var f := TestField(0.0);
    TypeNumber(f, 3000.0);
    RoundToStepOfMultiple(300, 10.0);
    var e := f.HandleInputKeyDown(Enter);
    assert e == Some(2000.0);
  }

  method UnderMinCommitsMin()
  {
    var f := TestField(100.0);
    TypeNumber(f, 10.0);
    RoundToStepOfMultiple(1, 10.0);
    var e := f.HandleInputKeyDown(Enter);
    assert e == Some(100.0);
  }

  method DecimalRoundsToStep()
  {
    var f := TestField(0.0);
    TypeNumber(f, 105.5);
    RoundToStepUnique(105.5, 10.0, 11);
    var e := f.HandleInputKeyDown(Enter);
    assert e == Some(110.0) && f.value == 110.0;
  }

  method NegativeCommitsMin()
  {
    var f := TestField(0.0);
    TypeNumber(f, -1.0);
    CommitNegativeIsMin(-1.0, 0.0, 2000.0, 10.0);
    var e := f.HandleInputKeyDown(Enter);
    assert f.value == 0.0 && e == None;
  }

  method TimeNeverPassesDuration()
  {
    var tc := TimeControls(0.0, 2000.0);
    var timeField := TimeField(tc);
    RoundToStepOfMultiple(300, 10.0);
    var committed := CommitValue(3000.0, timeField.min, timeField.max, timeField.step);
    assert committed == 2000.0;
    assert OnTimeChange(tc, committed) == TimeControls(2000.0, 2000.0);
  }

  method ShorterDurationPullsTimeDown()
  {
    var tc := TimeControls(2000.0, 2000.0);
    var durationField := DurationField();
    RoundToStepOfMultiple(100, 10.0);
    var committed := CommitValue(1000.0, durationField.min, durationField.max, durationField.step);
    assert committed == 1000.0;
    assert OnDurationChange(tc, committed) == TimeControls(1000.0, 1000.0);
  }

  /** The panel's node layout: 0 is the ruler, 1 the track list, 2 the
      keyframe list; the vertical group links the track list and the keyframe
      list, the horizontal group the ruler and the keyframe list. */
  method TimelineGroups() returns (doc: array<ScrollPos>, vertical: ScrollSyncGroup, horizontal: ScrollSyncGroup)
    ensures fresh(doc) && fresh(vertical) && fresh(horizontal)
    ensures doc.Length == 3 && forall i :: 0 <= i < 3 ==> doc[i] == ScrollPos(0.0, 0.0)
    ensures vertical.Valid() && vertical.connectedNodes == [1, 2] && vertical.vertical && !vertical.horizontal
    ensures horizontal.Valid() && horizontal.connectedNodes == [0, 2] && horizontal.horizontal && !horizontal.vertical
  {
    doc := new ScrollPos[3](_ => ScrollPos(0.0, 0.0));
    vertical := new ScrollSyncGroup(false, true);
    horizontal := new ScrollSyncGroup(true, false);
    vertical.RegisterScrollSync([1, 2]);
    horizontal.RegisterScrollSync([0, 2]);
  }

  method RulerScrollMovesKeyframes()
  {
    var doc, vertical, horizontal := TimelineGroups();
    doc[0] := doc[0].(left := 100.0);
    horizontal.HandleScrollInNodes(doc, 0);
    assert doc[2].left == 100.0 && doc[2].top == 0.0;
  }

  method TrackListScrollMovesKeyframes()
  {
    var doc, vertical, horizontal := TimelineGroups();
    doc[1] := doc[1].(top := 100.0);
    vertical.HandleScrollInNodes(doc, 1);
    assert doc[2].top == 100.0 && doc[2].left == 0.0;
    assert doc[0] == ScrollPos(0.0, 0.0);
  }

  method TimeChangeMovesPlayhead()
  {
    var p := new PlayheadNode(0.0);
    p.Render(200.0);
    assert p.offset == 200.0;
  }

  /** The scroll listener keeps the time of the render in which the node was
      attached: mounted at 0 and moved to 200, a ruler scroll of 50 puts the
      playhead at 0 - 50, which hides it and keeps the transform at 200. */
  method ScrollUsesAttachTime()
  {
    var p := new PlayheadNode(0.0);
    p.HandleRefPlayhead(true);
    p.Render(200.0);
    p.ResolvePlayheadPosition(Some(RulerView(50.0, 800.0)));
    assert p.hidden && p.offset == 200.0;
  }
}
