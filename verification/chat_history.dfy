/** The transcript reconciler of the voice chat client.

    Text events for one content id (start, output, stop) arrive in any order.  Each one is
    merged into a cache entry; once the entry has a truthy role, content, generation stage
    and stop reason it is folded into an ordered list of groups.  A second, stateless pass
    turns the groups into conversation turns, cutting or splicing interrupted utterances. */
module ChatHistory {
  import opened Wrappers
  import opened Strings

  const Final := "FINAL"
  const Speculative := "SPECULATIVE"
  const Interrupted := "INTERRUPTED"
  const EndTurn := "END_TURN"

  /** A sealed fragment: all four fields arrived. */
  datatype EventMessage = EventMessage(
    id: string, role: string, content: string, generationStage: string, stopReason: string)

  /** A partial fragment, as cached and as carried by one incoming event; None is `undefined`
      or `null`, both of which `??` treats as missing. */
  datatype Partial = Partial(
    id: string,
    role: Option<string>,
    content: Option<string>,
    generationStage: Option<string>,
    stopReason: Option<string>)

  type Group = seq<EventMessage>

  /** The reconciler's state: the sealed groups and the fragment cache. */
  datatype History = History(groups: seq<Group>, cache: map<string, Partial>)

  datatype Turn = Turn(role: string, content: string)

  /** The state after `clear`. */
  const Cleared := History([], map[])

  function SystemMessage(prompt: string): EventMessage {
    EventMessage("system", "system", prompt, Final, EndTurn)
  }

  /** `setupSystemPrompt`: the groups become one group holding the system prompt; the cache
      is left as it is. */
  function SetupSystemPrompt(h: History, prompt: string): (r: History)
    ensures r.cache == h.cache
    ensures |r.groups| == 1 && r.groups[0] == [SystemMessage(prompt)]
  {
    h.(groups := [[SystemMessage(prompt)]])
  }

  // ---------------------------------------------------------------------------------------
  // Merging a partial event into the cache

  /** The `??` merge: each field the event carries wins, each field it lacks keeps the
      cached value (none without a cache entry). */
  function Merge(cached: Option<Partial>, ev: Partial): (r: Partial)
    ensures r.id == ev.id
    ensures r.role == if ev.role.Some? then ev.role
                      else if cached.Some? then cached.value.role else None
    ensures r.content == if ev.content.Some? then ev.content
                         else if cached.Some? then cached.value.content else None
    ensures r.generationStage == if ev.generationStage.Some? then ev.generationStage
                                 else if cached.Some? then cached.value.generationStage else None
    ensures r.stopReason == if ev.stopReason.Some? then ev.stopReason
                            else if cached.Some? then cached.value.stopReason else None
  {
    var prior := if cached.Some? then cached.value else Partial(ev.id, None, None, None, None);
    Partial(
      ev.id,
      ev.role.Or(prior.role),
      ev.content.Or(prior.content),
      ev.generationStage.Or(prior.generationStage),
      ev.stopReason.Or(prior.stopReason))
  }

  predicate TruthyField(f: Option<string>) {
    f.Some? && Truthy(f.value)
  }

  /** All four fields are present and non-empty. */
  predicate Complete(p: Partial) {
    TruthyField(p.role) && TruthyField(p.content)
    && TruthyField(p.generationStage) && TruthyField(p.stopReason)
  }

  function Seal(p: Partial): (m: EventMessage)
    requires Complete(p)
    ensures m.id == p.id && Some(m.role) == p.role && Some(m.content) == p.content
    ensures Some(m.generationStage) == p.generationStage && Some(m.stopReason) == p.stopReason
  {
    EventMessage(p.id, p.role.value, p.content.value, p.generationStage.value, p.stopReason.value)
  }

  function Prior(h: History, id: string): Option<Partial> {
    if id in h.cache then Some(h.cache[id]) else None
  }

  function Merged(h: History, ev: Partial): Partial {
    Merge(Prior(h, ev.id), ev)
  }

  /** The event completes its cache entry, so the entry is folded into the groups. */
  predicate Seals(h: History, ev: Partial) {
    Complete(Merged(h, ev))
  }

  // ---------------------------------------------------------------------------------------
  // Folding a sealed fragment into the groups

  /** The fold reads the first element of the last group. */
  predicate FoldDefined(groups: seq<Group>) {
    |groups| > 0 && |groups[|groups| - 1]| > 0
  }

  predicate AllNonEmpty(groups: seq<Group>) {
    forall j :: 0 <= j < |groups| ==> |groups[j]| > 0
  }

  predicate HasStage(ms: Group, stage: string) {
    exists i :: 0 <= i < |ms| && ms[i].generationStage == stage
  }

  /** The number of fragments of `ms` whose generation stage is `stage`. */
  function CountStage(ms: Group, stage: string): (n: nat)
    ensures n <= |ms|
  {
    if ms == [] then 0
    else (if ms[0].generationStage == stage then 1 else 0) + CountStage(ms[1..], stage)
  }

  lemma {:induction false} CountStagePositive(ms: Group, stage: string)
    ensures CountStage(ms, stage) > 0 <==> HasStage(ms, stage)
  {
    if ms != [] {
      CountStagePositive(ms[1..], stage);
      if ms[0].generationStage != stage {
        forall i | 0 < i < |ms| && ms[i].generationStage == stage
          ensures HasStage(ms[1..], stage)
        {
          assert ms[1..][i - 1] == ms[i];
        }
        if HasStage(ms[1..], stage) {
          var j :| 0 <= j < |ms[1..]| && ms[1..][j].generationStage == stage;
          assert ms[j + 1] == ms[1..][j];
        }
      }
    }
  }

  /** `s.slice(n)`: empty once `n` passes the end. */
  function SliceFrom<T>(s: seq<T>, n: nat): seq<T> {
    if n <= |s| then s[n..] else []
  }

  function Fold(groups: seq<Group>, m: EventMessage): (r: seq<Group>)
    requires FoldDefined(groups)
    ensures |r| == |groups| || |r| == |groups| + 1
    ensures r[..|groups| - 1] == groups[..|groups| - 1]
    ensures m in r[|r| - 1]
    ensures AllNonEmpty(groups) ==> AllNonEmpty(r)
    ensures FoldDefined(r)
  {
    var n := |groups| - 1;
    var last := groups[n];
    if last[0].role == m.role then
      if m.generationStage == Final then
        var k := CountStage(last, Final);
        groups[..n] + [last[..k] + [m] + SliceFrom(last, k + 1)]
      else
        groups[..n] + [last + [m]]
    else
      groups[..n] + [last] + [[m]]
  }

  /** A fragment whose role differs from the last group's first role opens a new group;
      every earlier group is kept. */
  lemma FoldNewRole(groups: seq<Group>, m: EventMessage)
    requires FoldDefined(groups)
    requires groups[|groups| - 1][0].role != m.role
    ensures Fold(groups, m) == groups + [[m]]
  {
    var n := |groups| - 1;
    assert groups[..n] + [groups[n]] == groups;
  }

  /** A same-role fragment that is not FINAL is appended to the last group. */
  lemma FoldSameRoleAppends(groups: seq<Group>, m: EventMessage)
    requires FoldDefined(groups)
    requires groups[|groups| - 1][0].role == m.role && m.generationStage != Final
    ensures Fold(groups, m) == groups[..|groups| - 1] + [groups[|groups| - 1] + [m]]
  {
  }

  /** A same-role FINAL fragment takes index k of the last group, k being the number of
      FINAL fragments already there: it replaces the fragment at k, or is appended when the
      group has exactly k fragments.  The group grows by at most one. */
  lemma FoldSameRoleFinal(groups: seq<Group>, m: EventMessage)
    requires FoldDefined(groups)
    requires groups[|groups| - 1][0].role == m.role && m.generationStage == Final
    ensures var last := groups[|groups| - 1];
            var k := CountStage(last, Final);
            Fold(groups, m) == groups[..|groups| - 1]
              + [if k < |last| then last[k := m] else last + [m]]
  {
    var last := groups[|groups| - 1];
    var k := CountStage(last, Final);
    if k < |last| {
      assert SliceFrom(last, k + 1) == last[k + 1..];
      assert last[..k] + [m] + last[k + 1..] == last[k := m];
    } else {
      assert SliceFrom(last, k + 1) == [];
      assert last[..k] == last;
      assert last[..k] + [m] + SliceFrom(last, k + 1) == last + [m];
    }
  }

  // ---------------------------------------------------------------------------------------
  // `tryUpdateEventMessage` and the three text callbacks

  /** Calling the update is safe: a fold only happens on a non-empty last group. */
  predicate CanApply(h: History, ev: Partial) {
    Seals(h, ev) ==> FoldDefined(h.groups)
  }

  function TryUpdate(h: History, ev: Partial): (r: History)
    requires CanApply(h, ev)
    ensures r.cache.Keys == h.cache.Keys + {ev.id}
    ensures forall k :: k in h.cache && k != ev.id ==> r.cache[k] == h.cache[k]
    ensures r.cache[ev.id] == Merged(h, ev) && r.cache[ev.id].id == ev.id
    ensures ev.role.Some? ==> r.cache[ev.id].role == ev.role
    ensures ev.content.Some? ==> r.cache[ev.id].content == ev.content
    ensures ev.generationStage.Some? ==> r.cache[ev.id].generationStage == ev.generationStage
    ensures ev.stopReason.Some? ==> r.cache[ev.id].stopReason == ev.stopReason
    ensures ev.role.None? && ev.id in h.cache ==> r.cache[ev.id].role == h.cache[ev.id].role
    ensures ev.content.None? && ev.id in h.cache ==> r.cache[ev.id].content == h.cache[ev.id].content
    ensures ev.generationStage.None? && ev.id in h.cache
        ==> r.cache[ev.id].generationStage == h.cache[ev.id].generationStage
    ensures ev.stopReason.None? && ev.id in h.cache
        ==> r.cache[ev.id].stopReason == h.cache[ev.id].stopReason
    ensures !Complete(r.cache[ev.id]) ==> r.groups == h.groups
    ensures Complete(r.cache[ev.id]) ==>
              && |h.groups| > 0
              && (|r.groups| == |h.groups| || |r.groups| == |h.groups| + 1)
              && r.groups[..|h.groups| - 1] == h.groups[..|h.groups| - 1]
              && Seal(r.cache[ev.id]) in r.groups[|r.groups| - 1]
    ensures FoldDefined(h.groups) ==> FoldDefined(r.groups)
    ensures AllNonEmpty(h.groups) ==> AllNonEmpty(r.groups)
  {
    var entity := Merged(h, ev);
    var cache := h.cache[ev.id := entity];
    if Complete(entity) then History(Fold(h.groups, Seal(entity)), cache)
    else History(h.groups, cache)
  }

  /** The payload of a `textStart` event: id, role and generation stage. */
  function StartData(id: string, role: Option<string>, generationStage: Option<string>): Partial {
    Partial(id, role, None, generationStage, None)
  }

  /** The payload of a `textOutput` event: id, role and content. */
  function OutputData(id: string, role: Option<string>, content: Option<string>): Partial {
    Partial(id, role, content, None, None)
  }

  /** The payload of a `textStop` event: id and stop reason only. */
  function StopData(id: string, stopReason: Option<string>): Partial {
    Partial(id, None, None, None, stopReason)
  }

  /** An empty content string is present but falsy: it is cached and never seals. */
  lemma EmptyContentNeverSeals(h: History, ev: Partial)
    requires CanApply(h, ev)
    requires ev.content == Some("")
    ensures TryUpdate(h, ev).groups == h.groups
    ensures TryUpdate(h, ev).cache[ev.id].content == Some("")
  {
  }

  /** Two events for one id that agree on every field both carry can be merged in either
      order: this is what makes the cache tolerate out-of-order delivery. */
  lemma MergeCommutes(c: Option<Partial>, a: Partial, b: Partial)
    requires a.id == b.id
    requires a.role.Some? && b.role.Some? ==> a.role == b.role
    requires a.content.Some? && b.content.Some? ==> a.content == b.content
    requires a.generationStage.Some? && b.generationStage.Some?
        ==> a.generationStage == b.generationStage
    requires a.stopReason.Some? && b.stopReason.Some? ==> a.stopReason == b.stopReason
    ensures Merge(Some(Merge(c, a)), b) == Merge(Some(Merge(c, b)), a)
  {
  }

  /** A sequence with the multiset of three distinct values is one of their orderings. */
  lemma Permutation3<T>(evs: seq<T>, a: T, b: T, c: T)
    requires a != b && b != c && a != c
    requires multiset(evs) == multiset{a, b, c}
    ensures |evs| == 3
    ensures evs[0] in {a, b, c} && evs[1] in {a, b, c} && evs[2] in {a, b, c}
    ensures evs[0] != evs[1] && evs[1] != evs[2] && evs[0] != evs[2]
  {
    assert |evs| == |multiset(evs)| == 3;
    assert evs == [evs[0], evs[1], evs[2]];
    assert evs[0] in multiset(evs) && evs[1] in multiset(evs) && evs[2] in multiset(evs);
  }

  /** Merging the three events of a fresh id: no two of them complete the entry, all three
      do, whatever the order. */
  lemma MergeThreeFresh(
    id: string, role: string, content: string, stage: string, reason: string,
    e0: Partial, e1: Partial, e2: Partial)
    requires role != "" && content != "" && stage != "" && reason != ""
    requires
      var all := {StartData(id, Some(role), Some(stage)),
                  OutputData(id, Some(role), Some(content)),
                  StopData(id, Some(reason))};
      e0 in all && e1 in all && e2 in all
    requires e0 != e1 && e1 != e2 && e0 != e2
    ensures !Complete(Merge(None, e0))
    ensures !Complete(Merge(Some(Merge(None, e0)), e1))
    ensures Merge(Some(Merge(Some(Merge(None, e0)), e1)), e2)
         == Partial(id, Some(role), Some(content), Some(stage), Some(reason))
  {
  }

  /** Start, output and stop for a fresh id, in any of the six arrival orders: the first two
      leave the groups as they are and the third folds the complete fragment. */
  lemma {:induction false} SealsOnLastOfThree(
    h: History, id: string, role: string, content: string, stage: string, reason: string,
    evs: seq<Partial>)
    requires FoldDefined(h.groups)
    requires id !in h.cache
    requires role != "" && content != "" && stage != "" && reason != ""
    requires multiset(evs) == multiset{
      StartData(id, Some(role), Some(stage)),
      OutputData(id, Some(role), Some(content)),
      StopData(id, Some(reason))}
    ensures |evs| == 3
    ensures var h1 := TryUpdate(h, evs[0]);
            var h2 := TryUpdate(h1, evs[1]);
            && h1.groups == h.groups
            && h2.groups == h.groups
            && TryUpdate(h2, evs[2]).groups
               == Fold(h.groups, EventMessage(id, role, content, stage, reason))
  {
    Permutation3(evs,
      StartData(id, Some(role), Some(stage)),
      OutputData(id, Some(role), Some(content)),
      StopData(id, Some(reason)));
    var e0, e1, e2 := evs[0], evs[1], evs[2];
    assert e0.id == id && e1.id == id && e2.id == id;
    MergeThreeFresh(id, role, content, stage, reason, e0, e1, e2);
    var h1 := TryUpdate(h, e0);
    assert Prior(h, id) == None;
    assert h1.groups == h.groups;
    var h2 := TryUpdate(h1, e1);
    assert Prior(h1, id) == Some(Merge(None, e0));
    assert h2.groups == h.groups;
    assert Prior(h2, id) == Some(Merge(Some(Merge(None, e0)), e1));
  }

  /** Sealing is not once-only: an event for an id whose entry is already complete folds
      the fragment again, so a re-delivered `textStop` repeats the fragment. */
  lemma RedeliveredEventFoldsAgain(h: History, ev: Partial)
    requires ev.id in h.cache && Complete(h.cache[ev.id])
    requires ev.role.Some? ==> Truthy(ev.role.value)
    requires ev.content.Some? ==> Truthy(ev.content.value)
    requires ev.generationStage.Some? ==> Truthy(ev.generationStage.value)
    requires ev.stopReason.Some? ==> Truthy(ev.stopReason.value)
    ensures Seals(h, ev)
  {
  }

  /** A concrete instance: the assistant's only fragment delivered twice appears twice. */
  lemma RedeliveryDuplicatesFragment()
    ensures
      var a := EventMessage("c1", "assistant", "hi", Speculative, EndTurn);
      var h := History([[SystemMessage("p")], [a]],
                       map["c1" := Partial("c1", Some("assistant"), Some("hi"),
                                           Some(Speculative), Some(EndTurn))]);
      TryUpdate(h, StopData("c1", Some(EndTurn))).groups == [[SystemMessage("p")], [a, a]]
  {
    var a := EventMessage("c1", "assistant", "hi", Speculative, EndTurn);
    var full := Partial("c1", Some("assistant"), Some("hi"), Some(Speculative), Some(EndTurn));
    var h := History([[SystemMessage("p")], [a]], map["c1" := full]);
    var ev := StopData("c1", Some(EndTurn));
    assert Prior(h, "c1") == Some(full);
    assert Merged(h, ev) == full;
    assert Complete(full);
    assert Seal(full) == a;
    assert Speculative != Final;
    FoldSameRoleAppends(h.groups, a);
    assert h.groups[..1] == [[SystemMessage("p")]];
    assert [a] + [a] == [a, a];
  }

  // ---------------------------------------------------------------------------------------
  // The seeded invariant: what `setupSystemPrompt` establishes and updates preserve

  predicate Seeded(h: History, prompt: string) {
    |h.groups| > 0 && AllNonEmpty(h.groups) && h.groups[0][0] == SystemMessage(prompt)
  }

  lemma SetupEstablishesSeeded(h: History, prompt: string)
    ensures Seeded(SetupSystemPrompt(h, prompt), prompt)
  {
  }

  lemma {:induction false} CountStageHead(ms: Group, stage: string)
    requires ms != [] && ms[0].generationStage == stage
    ensures CountStage(ms, stage) >= 1
  {
  }

  /** Updates never displace the system prompt at the head of the first group, because it
      is FINAL: a FINAL fragment takes an index at least as large as the FINAL count. */
  lemma TryUpdatePreservesSeeded(h: History, ev: Partial, prompt: string)
    requires Seeded(h, prompt)
    ensures CanApply(h, ev)
    ensures Seeded(TryUpdate(h, ev), prompt)
  {
    var entity := Merged(h, ev);
    if Complete(entity) {
      var m := Seal(entity);
      var n := |h.groups| - 1;
      var last := h.groups[n];
      var r := Fold(h.groups, m);
      if n == 0 && last[0].role == m.role && m.generationStage == Final {
        CountStageHead(last, Final);
        FoldSameRoleFinal(h.groups, m);
      } else if n == 0 && last[0].role == m.role {
        FoldSameRoleAppends(h.groups, m);
      } else if n == 0 {
        FoldNewRole(h.groups, m);
      } else {
        assert r[..n] == h.groups[..n];
        assert r[0] == r[..n][0];
      }
    }
  }

  // ---------------------------------------------------------------------------------------
  // `isAssistantSpeeching`

  function IsAssistantSpeaking(groups: seq<Group>): (r: bool)
    requires groups != [] ==> groups[|groups| - 1] != []
    ensures r <==> && groups != []
                   && groups[|groups| - 1][0].role == "assistant"
                   && HasStage(groups[|groups| - 1], Speculative)
  {
    if |groups| == 0 then false
    else
      var last := groups[|groups| - 1];
      CountStagePositive(last, Speculative);
      last[0].role == "assistant" && CountStage(last, Speculative) > 0
  }
  /** What the speaking indicator shows right after a fragment is folded in: an assistant
      fragment still being generated (SPECULATIVE) turns it on, whatever came before, and a
      fragment of any other role turns it off. */
  lemma {:induction false} SpeakingAfterFold(groups: seq<Group>, m: EventMessage)
    requires FoldDefined(groups)
    ensures m.role == "assistant" && m.generationStage == Speculative
        ==> IsAssistantSpeaking(Fold(groups, m))
    ensures m.role != "assistant" ==> !IsAssistantSpeaking(Fold(groups, m))
  {
    var n := |groups| - 1;
    var last := groups[n];
    var r := Fold(groups, m);
    if last[0].role != m.role {
      FoldNewRole(groups, m);
      assert r[|r| - 1] == [m];
    } else if m.generationStage != Final {
      FoldSameRoleAppends(groups, m);
      assert r[|r| - 1] == last + [m];
      assert (last + [m])[|last|] == m;
    } else {
      FoldSameRoleFinal(groups, m);
      var k := CountStage(last, Final);
      var g := if k < |last| then last[k := m] else last + [m];
      assert r[|r| - 1] == g;
      assert g[0].role == m.role;
    }
  }

  /** The updates of a run of text events, applied in arrival order. */
  function ApplyAll(h: History, evs: seq<Partial>): (r: History)
    requires FoldDefined(h.groups)
    ensures FoldDefined(r.groups)
    decreases |evs|
  {
    if evs == [] then h else ApplyAll(TryUpdate(h, evs[0]), evs[1..])
  }


  // ---------------------------------------------------------------------------------------
  // `messages`: the interruption splice over the groups

  /** `ms.findIndex(m => m.stopReason === reason)`, None standing for -1. */
  function FirstStop(ms: Group, reason: string): (r: Option<nat>)
    ensures r.Some? ==> r.value < |ms| && ms[r.value].stopReason == reason
    ensures r.Some? ==> forall j :: 0 <= j < r.value ==> ms[j].stopReason != reason
    ensures r.None? ==> forall j :: 0 <= j < |ms| ==> ms[j].stopReason != reason
  {
    if ms == [] then None
    else if ms[0].stopReason == reason then Some(0)
    else match FirstStop(ms[1..], reason)
      case None => None
      case Some(i) => Some(i + 1)
  }

  function Contents(ms: Group): (cs: seq<string>)
    ensures |cs| == |ms|
    ensures forall i :: 0 <= i < |ms| ==> cs[i] == ms[i].content
  {
    seq(|ms|, i requires 0 <= i < |ms| => ms[i].content)
  }

  /** `ms.map(m => m.content).join(' ')` */
  function JoinContents(ms: Group): string {
    Join(Contents(ms), " ")
  }

  /** The loop state: the turns so far and whether the previous group was cut off at its
      first fragment. */
  datatype Acc = Acc(turns: seq<Turn>, interrupted: bool)

  const Start := Acc([], false)

  function SpliceStep(acc: Acc, g: Group): Acc
    requires |g| > 0
    requires acc.interrupted ==> acc.turns != []
  {
    if acc.interrupted then
      var n := |acc.turns| - 1;
      var last := acc.turns[n];
      Acc(acc.turns[..n] + [Turn(last.role, last.content + " " + JoinContents(g))], false)
    else
      match FirstStop(g, Interrupted)
      case Some(i) =>
        if i == 0 then Acc(acc.turns, true)
        else Acc(acc.turns + [Turn(g[0].role, JoinContents(g[..i]))], false)
      case None => Acc(acc.turns + [Turn(g[0].role, JoinContents(g))], false)
  }

  /** The loop never reads a missing element: every group is non-empty and a merge always
      has a previous turn to extend. */
  predicate SpliceOk(gs: seq<Group>, acc: Acc) {
    && AllNonEmpty(gs)
    && (gs != [] ==>
          if acc.interrupted then acc.turns != []
          else acc.turns != [] || |gs| == 1 || FirstStop(gs[0], Interrupted) != Some(0))
  }

  function Splice(gs: seq<Group>, acc: Acc): Acc
    requires SpliceOk(gs, acc)
    decreases |gs|
  {
    if gs == [] then acc
    else Splice(gs[1..], SpliceStep(acc, gs[0]))
  }

  /** The transcript is defined unless a group is empty or the very first group is cut off
      at its first fragment and another group follows it. */
  predicate MessagesDefined(groups: seq<Group>) {
    SpliceOk(groups, Start)
  }

  /** The transcript: at most one turn per group. */
  function Messages(groups: seq<Group>): (r: seq<Turn>)
    requires MessagesDefined(groups)
    ensures |r| <= |groups|
  {
    SpliceLength(groups, Start);
    Splice(groups, Start).turns
  }

  /** Each step of the loop adds at most one turn. */
  lemma {:induction false} SpliceLength(gs: seq<Group>, acc: Acc)
    requires SpliceOk(gs, acc)
    ensures |Splice(gs, acc).turns| <= |acc.turns| + |gs|
    decreases |gs|
  {
    if gs != [] {
      SpliceLength(gs[1..], SpliceStep(acc, gs[0]));
    }
  }

  /** After `clear` there is no transcript, nothing is being said, and the cache is empty;
      a fragment that seals right away cannot be folded in until the system prompt is set
      up. */
  lemma ClearedIsEmpty(ev: Partial)
    requires Seals(Cleared, ev)
    ensures MessagesDefined(Cleared.groups) && Messages(Cleared.groups) == []
    ensures !IsAssistantSpeaking(Cleared.groups) && Cleared.cache == map[]
    ensures !CanApply(Cleared, ev)
  {
  }

  /** The previous group was cut off at its first fragment, so the next one is merged. */
  predicate Pending(groups: seq<Group>)
    requires MessagesDefined(groups)
  {
    Splice(groups, Start).interrupted
  }

  lemma {:induction false} SpliceSnoc(gs: seq<Group>, g: Group, acc: Acc)
    requires SpliceOk(gs + [g], acc)
    ensures SpliceOk(gs, acc)
    ensures Splice(gs, acc).interrupted ==> Splice(gs, acc).turns != []
    ensures |g| > 0
    ensures Splice(gs + [g], acc) == SpliceStep(Splice(gs, acc), g)
    decreases |gs|
  {
    assert (gs + [g])[0] == if gs == [] then g else gs[0];
    assert |(gs + [g])[|gs|]| > 0;
    if gs == [] {
      assert [g][1..] == [];
    } else {
      assert (gs + [g])[1..] == gs[1..] + [g];
      SpliceSnoc(gs[1..], g, SpliceStep(acc, gs[0]));
    }
  }

  /** A group with no interruption, after a group that was not cut off, becomes one more
      turn: all its contents space-joined, with the role of its first fragment. */
  lemma MessagesAppendWhole(groups: seq<Group>, g: Group)
    requires MessagesDefined(groups + [g])
    requires FirstStop(g, Interrupted).None?
    ensures MessagesDefined(groups) && |g| > 0
    ensures !Pending(groups)
        ==> Messages(groups + [g]) == Messages(groups) + [Turn(g[0].role, JoinContents(g))]
  {
    SpliceSnoc(groups, g, Start);
  }

  /** A group interrupted at i > 0 becomes a turn of its first i contents. */
  lemma MessagesAppendCut(groups: seq<Group>, g: Group, i: nat)
    requires MessagesDefined(groups + [g])
    requires FirstStop(g, Interrupted) == Some(i) && i > 0
    ensures MessagesDefined(groups) && |g| > 0
    ensures !Pending(groups)
        ==> Messages(groups + [g]) == Messages(groups) + [Turn(g[0].role, JoinContents(g[..i]))]
  {
    SpliceSnoc(groups, g, Start);
  }

  /** A group interrupted at its first fragment yields no turn and makes the next group
      merge into the previous turn. */
  lemma MessagesDropHeadCut(groups: seq<Group>, g: Group)
    requires MessagesDefined(groups + [g])
    requires FirstStop(g, Interrupted) == Some(0)
    ensures MessagesDefined(groups) && |g| > 0
    ensures !Pending(groups)
        ==> Messages(groups + [g]) == Messages(groups) && Pending(groups + [g])
  {
    SpliceSnoc(groups, g, Start);
  }

  /** The group after a head-cut group is appended whole to the previous turn, joined with
      a space, whatever interruptions it holds itself. */
  lemma MessagesMergeAfterCut(groups: seq<Group>, g: Group)
    requires MessagesDefined(groups + [g])
    ensures MessagesDefined(groups)
    ensures Pending(groups) ==>
              var prev := Messages(groups);
              var n := |prev| - 1;
              && prev != []
              && Messages(groups + [g])
                 == prev[..n] + [Turn(prev[n].role, prev[n].content + " " + JoinContents(g))]
              && !Pending(groups + [g])
  {
    SpliceSnoc(groups, g, Start);
  }

  /** The transcript of a seeded history is always defined: the system prompt heads the
      first group and is never interrupted. */
  lemma SeededMessagesDefined(h: History, prompt: string)
    requires Seeded(h, prompt)
    ensures MessagesDefined(h.groups)
  {
    assert h.groups[0][0].stopReason == EndTurn;
  }

  /** Right after `setupSystemPrompt` the transcript is the system prompt alone. */
  lemma MessagesOfSystemPrompt(prompt: string)
    ensures MessagesDefined([[SystemMessage(prompt)]])
    ensures Messages([[SystemMessage(prompt)]]) == [Turn("system", prompt)]
  {
    var g := [SystemMessage(prompt)];
    assert FirstStop(g, Interrupted) == None;
    assert Contents(g) == [prompt];
    assert JoinContents(g) == prompt;
    assert SpliceStep(Start, g) == Acc([Turn("system", prompt)], false);
    assert [g][1..] == [];
    assert Splice([g], Start) == Splice([], SpliceStep(Start, g));
  }

  /** A user turn, an assistant utterance cut off before it began, and more user speech
      read as one user turn. */
  lemma ExampleHeadCutMergesUserTurns()
    ensures
      var u1 := EventMessage("u1", "user", "hello", Final, EndTurn);
      var a := EventMessage("a1", "assistant", "Sure", Speculative, Interrupted);
      var u2 := EventMessage("u2", "user", "again", Final, EndTurn);
      MessagesDefined([[u1], [a], [u2]])
      && Messages([[u1], [a], [u2]]) == [Turn("user", "hello again")]
  {
    var u1 := EventMessage("u1", "user", "hello", Final, EndTurn);
    var a := EventMessage("a1", "assistant", "Sure", Speculative, Interrupted);
    var u2 := EventMessage("u2", "user", "again", Final, EndTurn);
    assert Contents([u1]) == ["hello"] && Contents([u2]) == ["again"];
    assert JoinContents([u1]) == "hello";
    assert JoinContents([u2]) == "again";
    assert FirstStop([u1], Interrupted) == None;
    assert FirstStop([a], Interrupted) == Some(0);
    var acc1 := SpliceStep(Start, [u1]);
    assert acc1 == Acc([Turn("user", "hello")], false);
    var acc2 := SpliceStep(acc1, [a]);
    assert acc2 == Acc([Turn("user", "hello")], true);
    var acc3 := SpliceStep(acc2, [u2]);
    assert "hello" + " " + "again" == "hello again";
    assert acc3 == Acc([Turn("user", "hello again")], false);
    var gs := [[u1], [a], [u2]];
    assert gs[1..] == [[a], [u2]] && gs[1..][1..] == [[u2]] && gs[1..][1..][1..] == [];
    assert Splice([[u2]], acc2) == acc3;
    assert Splice([[a], [u2]], acc1) == acc3;
    assert Splice(gs, Start) == acc3;
  }

  /** Three assistant fragments, the second interrupted: only the first one's content is
      kept. */
  lemma ExampleCutKeepsPrefix()
    ensures
      var a0 := EventMessage("a0", "assistant", "One.", Final, EndTurn);
      var a1 := EventMessage("a1", "assistant", "Two.", Final, Interrupted);
      var a2 := EventMessage("a2", "assistant", "Three.", Final, EndTurn);
      MessagesDefined([[a0, a1, a2]])
      && Messages([[a0, a1, a2]]) == [Turn("assistant", "One.")]
  {
    var a0 := EventMessage("a0", "assistant", "One.", Final, EndTurn);
    var a1 := EventMessage("a1", "assistant", "Two.", Final, Interrupted);
    var a2 := EventMessage("a2", "assistant", "Three.", Final, EndTurn);
    assert FirstStop([a0, a1, a2], Interrupted) == Some(1);
    assert [a0, a1, a2][..1] == [a0];
    assert Contents([a0]) == ["One."];
    assert JoinContents([a0]) == "One.";
    var gs := [[a0, a1, a2]];
    assert gs[1..] == [];
    assert Splice(gs, Start) == SpliceStep(Start, [a0, a1, a2]);
  }
}
