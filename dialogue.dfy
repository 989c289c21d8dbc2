/**
 * The dialogue registry: custom dialogue events and colour codes added by
 * plugins, the builders that name and register events, and the two host
 * hooks (appending custom events after the host reads its dialogue data,
 * and resolving custom colour codes).
 */
module Dialogues {
  import opened Wrappers
  import opened ListOps
  import opened Text

  datatype Speaker = Single | OtherSpeaker(id: int)
  datatype MaxRepeatsBehaviour = RandomDefinedRepeat | OtherBehaviour(id: int)

  /** A line as a plugin writes it. */
  datatype CustomLine = CustomLine(id: int)

  /** A host line: the conversion of a custom line under a default speaker. */
  datatype Line = Line(source: CustomLine, defaultSpeaker: Speaker)
  datatype LineSet = LineSet(lines: seq<Line>)

  datatype DialogueEvent = DialogueEvent(
    id: string,
    mainLines: LineSet,
    repeatLines: seq<LineSet>,
    maxRepeatsBehaviour: MaxRepeatsBehaviour,
    speakers: seq<Speaker>)

  /** An event together with the plugin that registered it. */
  datatype Dialogue = Dialogue(dialogueEvent: DialogueEvent, pluginGuid: string)

  /** Colours are opaque. */
  datatype Color = Color(id: int)
  datatype DialogueColor = DialogueColor(color: Color, colorCode: string, pluginGuid: string)

  function DialogueId(d: Dialogue): string { d.dialogueEvent.id }
  function EventId(e: DialogueEvent): string { e.id }

  // ---------------------------------------------------------------------
  // Remove-by-id, shared by the registry and the host event list
  // ---------------------------------------------------------------------

  /** `list.RemoveAll(x => idOf(x) == id)` */
  function DropId<T>(s: seq<T>, idOf: T -> string, id: string): seq<T> {
    if s == [] then []
    else if idOf(s[0]) == id then DropId(s[1..], idOf, id)
    else [s[0]] + DropId(s[1..], idOf, id)
  }

  /** `list.RemoveAll(...)` followed by `list.Add(x)`. */
  function ReplaceById<T>(s: seq<T>, idOf: T -> string, x: T): seq<T> {
    DropId(s, idOf, idOf(x)) + [x]
  }

  /** The number of entries carrying the id. */
  function CountId<T>(s: seq<T>, idOf: T -> string, id: string): nat {
    if s == [] then 0 else (if idOf(s[0]) == id then 1 else 0) + CountId(s[1..], idOf, id)
  }

  lemma {:induction false} DropIdSpec<T>(s: seq<T>, idOf: T -> string, id: string)
    ensures CountId(DropId(s, idOf, id), idOf, id) == 0
    ensures forall x :: x in DropId(s, idOf, id) <==> x in s && idOf(x) != id
    ensures IsSubsequence(DropId(s, idOf, id), s)
    ensures |DropId(s, idOf, id)| == |s| - CountId(s, idOf, id)
  {
    if s != [] {
      DropIdSpec(s[1..], idOf, id);
      assert s == [s[0]] + s[1..];
      var rest := DropId(s[1..], idOf, id);
      if idOf(s[0]) == id {
        SubsequenceCons(rest, s);
      } else {
        assert DropId(s, idOf, id) == [s[0]] + rest;
        assert ([s[0]] + rest)[1..] == rest;
        if rest == [] {
          assert IsSubsequence(rest, s[1..]);
        }
      }
    }
  }

  /** Dropping an id twice is dropping it once. */
  lemma {:induction false} DropIdIdempotent<T>(s: seq<T>, idOf: T -> string, id: string)
    ensures DropId(DropId(s, idOf, id), idOf, id) == DropId(s, idOf, id)
  {
    if s != [] {
      DropIdIdempotent(s[1..], idOf, id);
      if idOf(s[0]) != id {
        assert ([s[0]] + DropId(s[1..], idOf, id))[1..] == DropId(s[1..], idOf, id);
      }
    }
  }

  lemma {:induction false} DropIdAppend<T>(s: seq<T>, idOf: T -> string, id: string, x: T)
    ensures DropId(s + [x], idOf, id) == DropId(s, idOf, id) + (if idOf(x) == id then [] else [x])
    ensures CountId(s + [x], idOf, id) == CountId(s, idOf, id) + (if idOf(x) == id then 1 else 0)
  {
    if s == [] {
      assert [x][1..] == [];
    } else {
      assert (s + [x])[1..] == s[1..] + [x];
      DropIdAppend(s[1..], idOf, id, x);
    }
  }

  /**
   * After a replacement the new entry is the last and the only one with
   * its id, and the entries with other ids are exactly those before, in
   * their old order.
   */
  lemma ReplaceByIdSpec<T>(s: seq<T>, idOf: T -> string, x: T)
    ensures var r := ReplaceById(s, idOf, x);
      && r[|r| - 1] == x
      && CountId(r, idOf, idOf(x)) == 1
      && DropId(r, idOf, idOf(x)) == DropId(s, idOf, idOf(x))
      && (forall y :: y in r <==> y == x || (y in s && idOf(y) != idOf(x)))
      && |r| == |s| - CountId(s, idOf, idOf(x)) + 1
  {
    var d := DropId(s, idOf, idOf(x));
    DropIdSpec(s, idOf, idOf(x));
    DropIdAppend(d, idOf, idOf(x), x);
    DropIdIdempotent(s, idOf, idOf(x));
  }

  /** Replacing twice under the same id leaves the length one replacement gives. */
  lemma ReplaceByIdTwice<T>(s: seq<T>, idOf: T -> string, x: T, y: T)
    requires idOf(x) == idOf(y)
    ensures ReplaceById(ReplaceById(s, idOf, x), idOf, y) == DropId(s, idOf, idOf(x)) + [y]
    ensures |ReplaceById(ReplaceById(s, idOf, x), idOf, y)| == |ReplaceById(s, idOf, x)|
  {
    var d := DropId(s, idOf, idOf(x));
    DropIdAppend(d, idOf, idOf(x), x);
    DropIdIdempotent(s, idOf, idOf(x));
  }

  // ---------------------------------------------------------------------
  // Building events
  // ---------------------------------------------------------------------

  /** `lines.ConvertAll(x => x.ToLine(speakers, defaultSpeaker))` */
  function ToLines(lines: seq<CustomLine>, defaultSpeaker: Speaker): seq<Line> {
    seq(|lines|, i requires 0 <= i < |lines| => Line(lines[i], defaultSpeaker))
  }

  function ToLineSets(sets: seq<seq<CustomLine>>, defaultSpeaker: Speaker): seq<LineSet> {
    seq(|sets|, i requires 0 <= i < |sets| => LineSet(ToLines(sets[i], defaultSpeaker)))
  }

  /**
   * What one `ToLine` call leaves in the speaker list it is handed, given
   * that list, the line and the default speaker. `CustomLine.ToLine` is not
   * part of this model, so this effect is an input.
   */
  type SpeakerStep = (seq<Speaker>, CustomLine, Speaker) -> seq<Speaker>

  /** The shared speaker list after converting `lines` in order. */
  function SpeakersAfter(speakers: seq<Speaker>, lines: seq<CustomLine>, defaultSpeaker: Speaker,
                         step: SpeakerStep): seq<Speaker>
  {
    if lines == [] then speakers
    else step(SpeakersAfter(speakers, lines[..|lines| - 1], defaultSpeaker, step), lines[|lines| - 1], defaultSpeaker)
  }

  /** The shared speaker list after converting each repeat set in order. */
  function SpeakersAfterSets(speakers: seq<Speaker>, sets: seq<seq<CustomLine>>, defaultSpeaker: Speaker,
                             step: SpeakerStep): seq<Speaker>
  {
    if sets == [] then speakers
    else SpeakersAfter(SpeakersAfterSets(speakers, sets[..|sets| - 1], defaultSpeaker, step), sets[|sets| - 1],
                       defaultSpeaker, step)
  }

  /** The event `GenerateEvent` builds before registering it. */
  function MakeEvent(name: string, mainLines: Option<seq<CustomLine>>, repeatLines: Option<seq<seq<CustomLine>>>,
                     afterMaxRepeats: MaxRepeatsBehaviour, defaultSpeaker: Speaker, step: SpeakerStep): DialogueEvent
  {
    DialogueEvent(
      name,
      LineSet(ToLines(mainLines.GetOr([]), defaultSpeaker)),
      ToLineSets(repeatLines.GetOr([]), defaultSpeaker),
      afterMaxRepeats,
      SpeakersAfterSets(SpeakersAfter([Single], mainLines.GetOr([]), defaultSpeaker, step),
                        repeatLines.GetOr([]), defaultSpeaker, step))
  }

  /**
   * The event is named after `name`, has one main line per given line
   * (none for a null list) and one repeat set per given set (none for a
   * null list), each line converted under the default speaker.
   */
  lemma MakeEventSpec(name: string, mainLines: Option<seq<CustomLine>>, repeatLines: Option<seq<seq<CustomLine>>>,
                      afterMaxRepeats: MaxRepeatsBehaviour, defaultSpeaker: Speaker, step: SpeakerStep)
    ensures var ev := MakeEvent(name, mainLines, repeatLines, afterMaxRepeats, defaultSpeaker, step);
      && ev.id == name
      && (mainLines.None? ==> ev.mainLines.lines == [])
      && (mainLines.Some? ==> (|ev.mainLines.lines| == |mainLines.value|
            && forall i :: 0 <= i < |mainLines.value| ==> ev.mainLines.lines[i].source == mainLines.value[i]))
      && (repeatLines.None? ==> ev.repeatLines == [])
      && (repeatLines.Some? ==> (|ev.repeatLines| == |repeatLines.value|
            && forall i :: 0 <= i < |repeatLines.value| ==> |ev.repeatLines[i].lines| == |repeatLines.value[i]|))
      && (mainLines.Some? ==> forall i :: 0 <= i < |mainLines.value| ==>
            ev.mainLines.lines[i] == Line(mainLines.value[i], defaultSpeaker))
      && (repeatLines.Some? ==> forall i, j :: 0 <= i < |repeatLines.value| && 0 <= j < |repeatLines.value[i]| ==>
            ev.repeatLines[i].lines[j] == Line(repeatLines.value[i][j], defaultSpeaker))
      && (forall l :: l in ev.mainLines.lines ==> l.defaultSpeaker == defaultSpeaker)
      && ev.maxRepeatsBehaviour == afterMaxRepeats
  {
  }

  /** A `ToLine` that only ever adds speakers keeps what the list held. */
  lemma {:induction false} SpeakersAfterGrows(speakers: seq<Speaker>, lines: seq<CustomLine>, defaultSpeaker: Speaker,
                                              step: SpeakerStep)
    requires forall s, l :: s <= step(s, l, defaultSpeaker)
    ensures speakers <= SpeakersAfter(speakers, lines, defaultSpeaker, step)
    decreases |lines|
  {
    if lines != [] {
      SpeakersAfterGrows(speakers, lines[..|lines| - 1], defaultSpeaker, step);
    }
  }

  lemma {:induction false} SpeakersAfterSetsGrows(speakers: seq<Speaker>, sets: seq<seq<CustomLine>>,
                                                  defaultSpeaker: Speaker, step: SpeakerStep)
    requires forall s, l :: s <= step(s, l, defaultSpeaker)
    ensures speakers <= SpeakersAfterSets(speakers, sets, defaultSpeaker, step)
    decreases |sets|
  {
    if sets != [] {
      var before := SpeakersAfterSets(speakers, sets[..|sets| - 1], defaultSpeaker, step);
      SpeakersAfterSetsGrows(speakers, sets[..|sets| - 1], defaultSpeaker, step);
      SpeakersAfterGrows(before, sets[|sets| - 1], defaultSpeaker, step);
    }
  }

  /** A `ToLine` that leaves the list alone leaves it as it was, however many lines there are. */
  lemma {:induction false} SpeakersAfterIdle(speakers: seq<Speaker>, lines: seq<CustomLine>, defaultSpeaker: Speaker,
                                             step: SpeakerStep)
    requires forall s, l :: step(s, l, defaultSpeaker) == s
    ensures SpeakersAfter(speakers, lines, defaultSpeaker, step) == speakers
    decreases |lines|
  {
    if lines != [] {
      SpeakersAfterIdle(speakers, lines[..|lines| - 1], defaultSpeaker, step);
    }
  }

  lemma {:induction false} SpeakersAfterSetsIdle(speakers: seq<Speaker>, sets: seq<seq<CustomLine>>,
                                                 defaultSpeaker: Speaker, step: SpeakerStep)
    requires forall s, l :: step(s, l, defaultSpeaker) == s
    ensures SpeakersAfterSets(speakers, sets, defaultSpeaker, step) == speakers
    decreases |sets|
  {
    if sets != [] {
      var before := SpeakersAfterSets(speakers, sets[..|sets| - 1], defaultSpeaker, step);
      SpeakersAfterSetsIdle(speakers, sets[..|sets| - 1], defaultSpeaker, step);
      SpeakersAfterIdle(before, sets[|sets| - 1], defaultSpeaker, step);
    }
  }

  /**
   * The event's speaker list is the one seeded with `Single` and handed to
   * every `ToLine` call: with no lines to convert, or a `ToLine` that adds
   * nothing, it is `[Single]`; with one that only adds, it starts with `Single`.
   */
  lemma MakeEventSpeakers(name: string, mainLines: Option<seq<CustomLine>>, repeatLines: Option<seq<seq<CustomLine>>>,
                          afterMaxRepeats: MaxRepeatsBehaviour, defaultSpeaker: Speaker, step: SpeakerStep)
    ensures var ev := MakeEvent(name, mainLines, repeatLines, afterMaxRepeats, defaultSpeaker, step);
      && (mainLines.GetOr([]) == [] && repeatLines.GetOr([]) == [] ==> ev.speakers == [Single])
      && ((forall s, l :: step(s, l, defaultSpeaker) == s) ==> ev.speakers == [Single])
      && ((forall s, l :: s <= step(s, l, defaultSpeaker)) ==> |ev.speakers| > 0 && ev.speakers[0] == Single)
  {
    var main := mainLines.GetOr([]);
    var sets := repeatLines.GetOr([]);
    if forall s, l :: step(s, l, defaultSpeaker) == s {
      SpeakersAfterIdle([Single], main, defaultSpeaker, step);
      SpeakersAfterSetsIdle([Single], sets, defaultSpeaker, step);
    }
    if forall s, l :: s <= step(s, l, defaultSpeaker) {
      SpeakersAfterGrows([Single], main, defaultSpeaker, step);
      SpeakersAfterSetsGrows(SpeakersAfter([Single], main, defaultSpeaker, step), sets, defaultSpeaker, step);
    }
  }

  const TraderPeltsPrefix: string := "TraderPelts"
  const RegionPrefix: string := "Region"

  /** A pelt as the trader event builder sees it. */
  datatype PeltData = PeltData(peltTierName: Option<string>)

  /** A region; its Unity object name is never null. */
  datatype RegionData = RegionData(name: string)

  /** `"TraderPelts" + peltTierName`, a null tier reading as empty. */
  function TraderPeltsEventId(peltTierName: Option<string>): string {
    Concat(TraderPeltsPrefix, peltTierName)
  }

  function RegionIntroductionEventId(regionName: Option<string>): string {
    Concat(RegionPrefix, regionName)
  }

  /**
   * Different tier (and region) names give different ids, and a trader
   * id is never a region id.
   */
  lemma EventIdsDistinct(a: Option<string>, b: Option<string>)
    ensures TraderPeltsEventId(a) == TraderPeltsEventId(b) ==> a.GetOr("") == b.GetOr("")
    ensures RegionIntroductionEventId(a) == RegionIntroductionEventId(b) ==> a.GetOr("") == b.GetOr("")
    ensures TraderPeltsEventId(a) != RegionIntroductionEventId(b)
    ensures StartsWith(TraderPeltsEventId(a), TraderPeltsPrefix) && StartsWith(RegionIntroductionEventId(b), RegionPrefix)
  {
    if TraderPeltsEventId(a) == TraderPeltsEventId(b) {
      assert a.GetOr("") == TraderPeltsEventId(a)[|TraderPeltsPrefix|..];
      assert b.GetOr("") == TraderPeltsEventId(b)[|TraderPeltsPrefix|..];
    }
    if RegionIntroductionEventId(a) == RegionIntroductionEventId(b) {
      assert a.GetOr("") == RegionIntroductionEventId(a)[|RegionPrefix|..];
      assert b.GetOr("") == RegionIntroductionEventId(b)[|RegionPrefix|..];
    }
    assert TraderPeltsEventId(a)[0] == 'T' && RegionIntroductionEventId(b)[0] == 'R';
    assert TraderPeltsEventId(a)[..|TraderPeltsPrefix|] == TraderPeltsPrefix;
    assert RegionIntroductionEventId(b)[..|RegionPrefix|] == RegionPrefix;
  }

  /** The outcome of a Harmony prefix: whether the original runs, and the result it leaves. */
  datatype PrefixOutcome<R> = PrefixOutcome(runOriginal: bool, result: R)

  /** The colour-code prefix over a lookup table, given the parsed code. */
  function ColorDecision(lookup: map<string, Color>, parsedCode: string, result: Color): (r: PrefixOutcome<Color>)
    ensures r.runOriginal <==> parsedCode !in lookup
    ensures !r.runOriginal ==> r.result == lookup[parsedCode]
    ensures r.runOriginal ==> r.result == result
  {
    if parsedCode in lookup then PrefixOutcome(false, lookup[parsedCode]) else PrefixOutcome(true, result)
  }

  /** Once a code is registered, the prefix resolves it to the latest colour given for it. */
  lemma RegisteredColorWins(lookup: map<string, Color>, code: string, color: Color, result: Color)
    ensures ColorDecision(lookup[code := color], code, result) == PrefixOutcome(false, color)
  {
  }

  // ---------------------------------------------------------------------
  // The registry
  // ---------------------------------------------------------------------

  const DuplicateWarning: string := "Attempting to add dialogue with id that already exists: "

  /** The warnings the postfix logs: one per custom entry whose id the host list already had. */
  function DuplicateWarnings(ids: seq<string>, ds: seq<Dialogue>): (r: seq<string>)
    ensures |r| <= |ds|
  {
    if ds == [] then []
    else
      var before := DuplicateWarnings(ids, ds[..|ds| - 1]);
      var id := DialogueId(ds[|ds| - 1]);
      if id in ids then before + [DuplicateWarning + id] else before
  }

  /**
   * A warning is logged exactly for each custom entry whose id was
   * already among the host's ids, and it names that id.
   */
  lemma {:induction false} DuplicateWarningsSpec(ids: seq<string>, ds: seq<Dialogue>)
    ensures forall w :: w in DuplicateWarnings(ids, ds) <==>
      exists i :: 0 <= i < |ds| && DialogueId(ds[i]) in ids && w == DuplicateWarning + DialogueId(ds[i])
    ensures (forall i :: 0 <= i < |ds| ==> DialogueId(ds[i]) !in ids) ==> DuplicateWarnings(ids, ds) == []
    decreases |ds|
  {
    if ds != [] {
      var init := ds[..|ds| - 1];
      DuplicateWarningsSpec(ids, init);
      assert forall i :: 0 <= i < |init| ==> init[i] == ds[i];
      forall w | w in DuplicateWarnings(ids, ds)
        ensures exists i :: 0 <= i < |ds| && DialogueId(ds[i]) in ids && w == DuplicateWarning + DialogueId(ds[i])
      {
        if w !in DuplicateWarnings(ids, init) {
          assert DialogueId(ds[|ds| - 1]) in ids && w == DuplicateWarning + DialogueId(ds[|ds| - 1]);
        }
      }
      forall w, i | 0 <= i < |ds| && DialogueId(ds[i]) in ids && w == DuplicateWarning + DialogueId(ds[i])
        ensures w in DuplicateWarnings(ids, ds)
      {
        if i < |init| {
          assert DialogueId(init[i]) in ids;
        }
      }
    }
  }

  /** The events of the custom dialogues, in registry order. */
  function EventsOf(ds: seq<Dialogue>): (r: seq<DialogueEvent>)
    ensures |r| == |ds|
    ensures forall i :: 0 <= i < |ds| ==> r[i] == ds[i].dialogueEvent
  {
    if ds == [] then [] else EventsOf(ds[..|ds| - 1]) + [ds[|ds| - 1].dialogueEvent]
  }

  function EventIds(events: seq<DialogueEvent>): seq<string> {
    seq(|events|, i requires 0 <= i < |events| => events[i].id)
  }

  class DialogueManager {
    var customDialogue: seq<Dialogue>
    var customDialogueColor: seq<DialogueColor>
    var colorLookup: map<string, Color>
    /** The host's loaded event list; `None` when the data or its list is null. */
    var hostEvents: Option<seq<DialogueEvent>>
    /** What `CustomLine.ToLine` does to the speaker list it is handed. */
    const toLineSpeakers: SpeakerStep

    constructor (hostEvents: Option<seq<DialogueEvent>>, toLineSpeakers: SpeakerStep)
      ensures customDialogue == [] && customDialogueColor == [] && colorLookup == map[]
      ensures this.hostEvents == hostEvents && this.toLineSpeakers == toLineSpeakers
    {
      customDialogue, customDialogueColor, colorLookup := [], [], map[];
      this.hostEvents := hostEvents;
      this.toLineSpeakers := toLineSpeakers;
    }

    /** Registers the event, replacing every entry (custom and host) with the same id. */
    method Add(pluginGuid: string, dialogueEvent: DialogueEvent) returns (dialogue: Dialogue)
      modifies this`customDialogue, this`hostEvents
      ensures dialogue == Dialogue(dialogueEvent, pluginGuid)
      ensures customDialogue == ReplaceById(old(customDialogue), DialogueId, dialogue)
      ensures hostEvents == if old(hostEvents).None? then None
                            else Some(ReplaceById(old(hostEvents).value, EventId, dialogueEvent))
      ensures CountId(customDialogue, DialogueId, dialogueEvent.id) == 1
      ensures customDialogue[|customDialogue| - 1] == dialogue
    {
      dialogue := Dialogue(dialogueEvent, pluginGuid);
      customDialogue := DropId(customDialogue, DialogueId, dialogueEvent.id);
      customDialogue := customDialogue + [dialogue];
      if hostEvents.Some? {
        hostEvents := Some(DropId(hostEvents.value, EventId, dialogueEvent.id));
        hostEvents := Some(hostEvents.value + [dialogueEvent]);
      }
      ReplaceByIdSpec(old(customDialogue), DialogueId, dialogue);
    }

    method AddColor(pluginGuid: string, code: string, color: Color) returns (data: DialogueColor)
      modifies this`colorLookup, this`customDialogueColor
      ensures data == DialogueColor(color, code, pluginGuid)
      ensures colorLookup == old(colorLookup)[code := color]
      ensures customDialogueColor == old(customDialogueColor) + [data]
    {
      data := DialogueColor(color, code, pluginGuid);
      colorLookup := colorLookup[code := color];
      customDialogueColor := customDialogueColor + [data];
    }

    method GenerateEvent(pluginGuid: string, name: string, mainLines: Option<seq<CustomLine>>,
                         repeatLines: Option<seq<seq<CustomLine>>> := None,
                         afterMaxRepeats: MaxRepeatsBehaviour := RandomDefinedRepeat,
                         defaultSpeaker: Speaker := Single)
      returns (ev: DialogueEvent)
      modifies this`customDialogue, this`hostEvents
      ensures ev == MakeEvent(name, mainLines, repeatLines, afterMaxRepeats, defaultSpeaker, toLineSpeakers)
      ensures ev.id == name
      ensures customDialogue == ReplaceById(old(customDialogue), DialogueId, Dialogue(ev, pluginGuid))
      ensures hostEvents == if old(hostEvents).None? then None
                            else Some(ReplaceById(old(hostEvents).value, EventId, ev))
    {
      ev := MakeEvent(name, mainLines, repeatLines, afterMaxRepeats, defaultSpeaker, toLineSpeakers);
      var _ := Add(pluginGuid, ev);
    }

    method GenerateTraderPeltsEvent(pluginGuid: string, peltTierName: Option<string>, lines: Option<seq<CustomLine>>,
                                    repeatLines: Option<seq<seq<CustomLine>>> := None)
      returns (ev: DialogueEvent)
      modifies this`customDialogue, this`hostEvents
      ensures ev == MakeEvent(TraderPeltsEventId(peltTierName), lines, repeatLines, RandomDefinedRepeat, Single, toLineSpeakers)
      ensures customDialogue == ReplaceById(old(customDialogue), DialogueId, Dialogue(ev, pluginGuid))
      ensures hostEvents == if old(hostEvents).None? then None
                            else Some(ReplaceById(old(hostEvents).value, EventId, ev))
    {
      ev := GenerateEvent(pluginGuid, TraderPeltsEventId(peltTierName), lines, repeatLines);
    }

    /**
     * The overload taking the pelt: its tier name, or when that is null
     * the name `tierNameFromData` derives from the pelt.
     */
    method GenerateTraderPeltsEventForPelt(pluginGuid: string, pelt: PeltData, tierNameFromData: PeltData -> Option<string>,
                                           lines: Option<seq<CustomLine>>, repeatLines: Option<seq<seq<CustomLine>>> := None)
      returns (ev: DialogueEvent)
      modifies this`customDialogue, this`hostEvents
      ensures ev.id == TraderPeltsEventId(if pelt.peltTierName.Some? then pelt.peltTierName else tierNameFromData(pelt))
      ensures ev == MakeEvent(ev.id, lines, repeatLines, RandomDefinedRepeat, Single, toLineSpeakers)
      ensures customDialogue == ReplaceById(old(customDialogue), DialogueId, Dialogue(ev, pluginGuid))
      ensures hostEvents == if old(hostEvents).None? then None
                            else Some(ReplaceById(old(hostEvents).value, EventId, ev))
    {
      var tier := if pelt.peltTierName.Some? then pelt.peltTierName else tierNameFromData(pelt);
      ev := GenerateTraderPeltsEvent(pluginGuid, tier, lines, repeatLines);
    }

    method GenerateRegionIntroductionEvent(pluginGuid: string, regionName: Option<string>, lines: Option<seq<CustomLine>>,
                                           repeatLines: Option<seq<seq<CustomLine>>> := None)
      returns (ev: DialogueEvent)
      modifies this`customDialogue, this`hostEvents
      ensures ev == MakeEvent(RegionIntroductionEventId(regionName), lines, repeatLines, RandomDefinedRepeat, Single, toLineSpeakers)
      ensures customDialogue == ReplaceById(old(customDialogue), DialogueId, Dialogue(ev, pluginGuid))
      ensures hostEvents == if old(hostEvents).None? then None
                            else Some(ReplaceById(old(hostEvents).value, EventId, ev))
    {
      ev := GenerateEvent(pluginGuid, RegionIntroductionEventId(regionName), lines, repeatLines);
    }

    method GenerateRegionIntroductionEventForRegion(pluginGuid: string, region: RegionData, lines: Option<seq<CustomLine>>,
                                                    repeatLines: Option<seq<seq<CustomLine>>> := None)
      returns (ev: DialogueEvent)
      modifies this`customDialogue, this`hostEvents
      ensures ev == MakeEvent(RegionPrefix + region.name, lines, repeatLines, RandomDefinedRepeat, Single, toLineSpeakers)
      ensures customDialogue == ReplaceById(old(customDialogue), DialogueId, Dialogue(ev, pluginGuid))
      ensures hostEvents == if old(hostEvents).None? then None
                            else Some(ReplaceById(old(hostEvents).value, EventId, ev))
    {
      ev := GenerateRegionIntroductionEvent(pluginGuid, Some(region.name), lines, repeatLines);
    }

    /**
     * After the host reads its dialogue data, every custom event is
     * appended, duplicates included; the returned warnings are the ones
     * logged for ids the host list had before the first append. The host
     * list is dereferenced unchecked, hence the precondition.
     */
    method ReadDialogueDataPostfix() returns (warnings: seq<string>)
      requires hostEvents.Some?
      modifies this`hostEvents
      ensures hostEvents == Some(old(hostEvents).value + EventsOf(customDialogue))
      ensures |hostEvents.value| == |old(hostEvents).value| + |customDialogue|
      ensures warnings == DuplicateWarnings(EventIds(old(hostEvents).value), customDialogue)
    {
      var ids := EventIds(hostEvents.value);
      warnings := [];
      assert old(hostEvents).value + EventsOf(customDialogue[..0]) == old(hostEvents).value;
      for i := 0 to |customDialogue|
        invariant hostEvents == Some(old(hostEvents).value + EventsOf(customDialogue[..i]))
        invariant warnings == DuplicateWarnings(ids, customDialogue[..i])
      {
        assert customDialogue[..i + 1][..i] == customDialogue[..i];
        assert EventsOf(customDialogue[..i + 1]) == EventsOf(customDialogue[..i]) + [customDialogue[i].dialogueEvent];
        var id := customDialogue[i].dialogueEvent.id;
        if id in ids {
          warnings := warnings + [DuplicateWarning + id];
        }
        hostEvents := Some(hostEvents.value + [customDialogue[i].dialogueEvent]);
        assert hostEvents.value == old(hostEvents).value + (EventsOf(customDialogue[..i]) + [customDialogue[i].dialogueEvent]);
      }
      assert customDialogue[..|customDialogue|] == customDialogue;
    }

    /** The `GetColorFromCode` prefix; `parsedCode` is the host's parse of the `c` value of the code. */
    function GetColorFromCodePrefix(parsedCode: string, result: Color): (r: PrefixOutcome<Color>)
      reads this
      ensures r.runOriginal <==> parsedCode !in colorLookup
      ensures !r.runOriginal ==> r.result == colorLookup[parsedCode]
      ensures r.runOriginal ==> r.result == result
    {
      ColorDecision(colorLookup, parsedCode, result)
    }
  }
}
