/**
 * Applying a skin through the cslol-manager tools (src/main/skins.ts): the
 * fixed sequence of directory operations and tool invocations `setSkin`
 * performs, and the module-level handle of the running overlay process.
 * Processes and the file system are abstract effects recorded in a trace;
 * the success or failure of each awaited step is an input. A call is cut at
 * its awaits into segments, so that segments of overlapping calls can
 * interleave.
 */
module Skins {
  import opened Wrappers
  import opened Decimal

  // ---------------------------------------------------------------------
  // Locations (src/main/constants.ts), all under the application's user-data directory
  // ---------------------------------------------------------------------

  function CslolManagerLocation(userData: string): (r: string) { userData + "\\cslol-manager" }
  function CslolManagerExecutable(userData: string): (r: string) { CslolManagerLocation(userData) + "\\cslol-tools\\mod-tools.exe" }
  function CslolManagerConfig(userData: string): (r: string) { CslolManagerLocation(userData) + "\\config.ini" }
  function LolSkinsLocation(userData: string): (r: string) { userData + "\\lol-skins-main\\skins" }
  function TempDir(userData: string): (r: string) { userData + "\\temp" }

  /** The skin or chroma to apply: only its champion id and its id are used. */
  datatype SkinRef = SkinRef(championId: nat, id: nat)

  /** The mod name under which the skin is staged and packaged. */
  const ModName: string := "skin"

  function SkinsDir(userData: string): (r: string) { TempDir(userData) + "\\skins" }
  function OverlayDir(userData: string): (r: string) { TempDir(userData) + "\\overlay" }

  /** `<skins location>\<championId>\<id>.fantome`. */
  function SkinPath(userData: string, skin: SkinRef): (r: string)
  {
    LolSkinsLocation(userData) + "\\" + Show(skin.championId) + "\\" + Show(skin.id) + ".fantome"
  }

  /** The game directory: the configured League path followed by `\Game`. */
  function GamePath(leaguePath: string): (r: string) { leaguePath + "\\Game" }

  // ---------------------------------------------------------------------
  // Commands and effects
  // ---------------------------------------------------------------------

  /** The three mod-tools commands with their arguments. */
  datatype Command =
    | Import(source: string, slot: string, game: string)
    | MkOverlay(slots: string, overlay: string, game: string, mods: string)
    | RunOverlay(overlay: string, config: string, game: string)

  /** A child process, named by the order in which the session spawned it. */
  type Handle = nat

  datatype Effect =
    | RemoveDir(path: string)
    | EnsureDir(path: string)
    | Kill(handle: Handle)
    | Exec(tool: string, cmd: Command)
    | Spawn(tool: string, cmd: Command, handle: Handle)

  /** Whether each awaited step succeeds; `spawn` itself never throws. */
  datatype Outcomes = Outcomes(removeOk: bool, ensureOk: bool, importOk: bool, mkoverlayOk: bool)

  predicate AllOk(o: Outcomes)
  {
    o.removeOk && o.ensureOk && o.importOk && o.mkoverlayOk
  }

  function ImportCommand(userData: string, leaguePath: string, skin: SkinRef): (r: Command)
  {
    Import(SkinPath(userData, skin), SkinsDir(userData) + "/" + ModName, GamePath(leaguePath))
  }

  function MkOverlayCommand(userData: string, leaguePath: string): (r: Command)
  {
    MkOverlay(SkinsDir(userData), OverlayDir(userData), GamePath(leaguePath), ModName)
  }

  function RunOverlayCommand(userData: string, leaguePath: string): (r: Command)
  {
    RunOverlay(OverlayDir(userData), CslolManagerConfig(userData), GamePath(leaguePath))
  }

  function KillHeld(held: Option<Handle>): (r: seq<Effect>)
  {
    match held
    case None => []
    case Some(h) => [Kill(h)]
  }

  /**
   * The effects of one `setSkin` call, given the handle held before it,
   * the handle the spawn would get, and the outcome of each awaited step;
   * the call stops at the first step that fails.
   */
  function SetSkinEffects(userData: string, leaguePath: string, skin: SkinRef,
                          held: Option<Handle>, next: Handle, o: Outcomes): (es: seq<Effect>)
  {
    var temp, tool := TempDir(userData), CslolManagerExecutable(userData);
    var removed := [RemoveDir(temp)];
    if !o.removeOk then removed else
    var ensured := removed + [EnsureDir(temp)];
    if !o.ensureOk then ensured else
    var imported := ensured + KillHeld(held) + [Exec(tool, ImportCommand(userData, leaguePath, skin))];
    if !o.importOk then imported else
    var packaged := imported + [Exec(tool, MkOverlayCommand(userData, leaguePath))];
    if !o.mkoverlayOk then packaged else
    packaged + [Spawn(tool, RunOverlayCommand(userData, leaguePath), next)]
  }

  /** `runningProcess` after the call. */
  function HeldAfter(held: Option<Handle>, next: Handle, o: Outcomes): (after: Option<Handle>)
  {
    if !o.removeOk || !o.ensureOk then held
    else if !o.importOk || !o.mkoverlayOk then None
    else Some(next)
  }

  // ---------------------------------------------------------------------
  // What one call does
  // ---------------------------------------------------------------------

  /** The position of each kind of effect in the fixed order of `setSkin`. */
  function Rank(e: Effect): (r: nat)
  {
    match e
    case RemoveDir(_) => 0
    case EnsureDir(_) => 1
    case Kill(_) => 2
    case Exec(_, cmd) => if cmd.Import? then 3 else 4
    case Spawn(_, _, _) => 5
  }

  /**
   * The effects of a call come in the order remove, ensure, kill, import,
   * mkoverlay, spawn, each at most once: so the temp directory is cleared
   * and re-created before any kill or tool runs, the old overlay is killed
   * before `import`, and `import` and `mkoverlay` complete before the spawn.
   */
  lemma SetSkinOrder(userData: string, leaguePath: string, skin: SkinRef, held: Option<Handle>, next: Handle, o: Outcomes)
    ensures var es := SetSkinEffects(userData, leaguePath, skin, held, next, o);
      forall i, j :: 0 <= i < j < |es| ==> Rank(es[i]) < Rank(es[j])
  {
    var es := SetSkinEffects(userData, leaguePath, skin, held, next, o);
    assert forall i :: 0 <= i && i + 1 < |es| ==> Rank(es[i]) < Rank(es[i + 1]);
    RanksIncrease(es);
  }

  lemma {:induction false} RanksIncrease(es: seq<Effect>)
    requires forall i :: 0 <= i && i + 1 < |es| ==> Rank(es[i]) < Rank(es[i + 1])
    ensures forall i, j :: 0 <= i < j < |es| ==> Rank(es[i]) < Rank(es[j])
    decreases |es|
  {
    if |es| > 1 {
      var rest := es[1..];
      RanksIncrease(rest);
      forall i, j | 0 <= i < j < |es| ensures Rank(es[i]) < Rank(es[j]) {
        if 0 < i {
          assert rest[i - 1] == es[i] && rest[j - 1] == es[j];
        } else if 1 < j {
          assert rest[0] == es[1] && rest[j - 1] == es[j];
        }
      }
    }
  }

  /**
   * A call that gets past the directory steps kills the handle held before
   * it, exactly once, and runs `import`; when every step succeeds it also
   * runs `mkoverlay` and ends by spawning the overlay under the new handle.
   */
  lemma SetSkinSteps(userData: string, leaguePath: string, skin: SkinRef, held: Option<Handle>, next: Handle, o: Outcomes)
    ensures var es := SetSkinEffects(userData, leaguePath, skin, held, next, o);
      && (o.removeOk && o.ensureOk ==>
            && Exec(CslolManagerExecutable(userData), ImportCommand(userData, leaguePath, skin)) in es
            && (forall h: Handle :: Kill(h) in es <==> held == Some(h)))
      && (AllOk(o) ==>
            && Exec(CslolManagerExecutable(userData), MkOverlayCommand(userData, leaguePath)) in es
            && es[|es| - 1] == Spawn(CslolManagerExecutable(userData), RunOverlayCommand(userData, leaguePath), next))
      && (!o.removeOk || !o.ensureOk ==> forall e :: e in es ==> e.RemoveDir? || e.EnsureDir?)
      && (!AllOk(o) ==> forall e :: e in es ==> !e.Spawn?)
  {
  }

  /**
   * After a successful call the held handle is exactly the one spawned by
   * that call; when `import` or `mkoverlay` fails none is held (the old
   * overlay is gone and no new one exists); when the directory steps fail
   * the held handle is untouched.
   */
  lemma SetSkinHandle(userData: string, leaguePath: string, skin: SkinRef, held: Option<Handle>, next: Handle, o: Outcomes)
    ensures var es := SetSkinEffects(userData, leaguePath, skin, held, next, o);
      var after := HeldAfter(held, next, o);
      && (AllOk(o) <==> after.Some? && Spawn(CslolManagerExecutable(userData), RunOverlayCommand(userData, leaguePath), after.value) in es)
      && (o.removeOk && o.ensureOk && !AllOk(o) ==> after.None?)
      && (!o.removeOk || !o.ensureOk ==> after == held)
  {
  }

  /**
   * The paths the call uses: the skin archive is
   * `<skins location>\<championId>\<id>.fantome`, every tool gets the game
   * directory `<league path>\Game`, every tool run is `mod-tools.exe` under
   * the cslol-manager location, and the overlay built by `mkoverlay` is the
   * one `runoverlay` starts.
   */
  lemma SetSkinPaths(userData: string, leaguePath: string, skin: SkinRef, held: Option<Handle>, next: Handle, o: Outcomes)
    ensures var es := SetSkinEffects(userData, leaguePath, skin, held, next, o);
      && (forall e :: e in es && e.Exec? ==> e.cmd.game == GamePath(leaguePath))
      && (forall e :: e in es && e.Spawn? ==> e.cmd.game == GamePath(leaguePath))
      && (forall e :: e in es && e.Exec? && e.cmd.Import? ==> e.cmd.source == SkinPath(userData, skin))
      && (forall e :: e in es && e.Exec? && e.cmd.MkOverlay? ==> e.cmd.overlay == OverlayDir(userData))
      && (forall e :: e in es && e.Spawn? ==> e.cmd.overlay == OverlayDir(userData))
      && (forall e :: e in es && (e.RemoveDir? || e.EnsureDir?) ==> e.path == TempDir(userData))
      && (forall e :: e in es && (e.Exec? || e.Spawn?) ==> e.tool == CslolManagerExecutable(userData))
  {
  }

  /**
   * The skin is staged into the slot `<skins dir>/skin` and `mkoverlay`
   * packages the mods named `skin` from that same directory, so the staged
   * slot and the packaged mod are the same.
   */
  lemma SlotMatchesMods(userData: string, leaguePath: string, skin: SkinRef)
    ensures var imp := ImportCommand(userData, leaguePath, skin);
      var mk := MkOverlayCommand(userData, leaguePath);
      imp.slot == mk.slots + "/" + mk.mods
  {
  }

  // ---------------------------------------------------------------------
  // The session invariant
  // ---------------------------------------------------------------------

  /** The handles spawned in a trace. */
  function Spawned(trace: seq<Effect>): (r: set<Handle>)
  {
    if trace == [] then {}
    else
      var last := trace[|trace| - 1];
      Spawned(trace[..|trace| - 1]) + (if last.Spawn? then {last.handle} else {})
  }

  /** How many times a trace kills `h`. */
  function KillCount(trace: seq<Effect>, h: Handle): (r: nat)
  {
    if trace == [] then 0
    else KillCount(trace[..|trace| - 1], h) + (if trace[|trace| - 1] == Kill(h) then 1 else 0)
  }

  /** `h` was spawned and has not been killed. */
  ghost predicate Live(trace: seq<Effect>, h: Handle)
  {
    h in Spawned(trace) && KillCount(trace, h) == 0
  }

  /**
   * What the session keeps true: the held handle is the only live one,
   * every handle spawned so far is below `next`, no handle is killed twice,
   * and only spawned handles are killed.
   */
  ghost predicate SessionInvariant(trace: seq<Effect>, held: Option<Handle>, next: Handle)
  {
    && (forall h: Handle :: Live(trace, h) <==> held == Some(h))
    && (forall h: Handle :: h in Spawned(trace) ==> h < next)
    && (forall h: Handle :: KillCount(trace, h) <= 1)
    && (forall h: Handle :: KillCount(trace, h) > 0 ==> h in Spawned(trace))
  }

  lemma AppendEffect(trace: seq<Effect>, e: Effect)
    ensures Spawned(trace + [e]) == Spawned(trace) + (if e.Spawn? then {e.handle} else {})
    ensures forall h: Handle :: KillCount(trace + [e], h) == KillCount(trace, h) + (if e == Kill(h) then 1 else 0)
  {
    assert (trace + [e])[..|trace|] == trace;
  }

  lemma AppendAssoc(a: seq<Effect>, b: seq<Effect>, c: seq<Effect>)
    ensures a + b + c == a + (b + c)
  {
  }

  /** Directory operations and awaited tool runs leave the handles as they are. */
  lemma QuietStep(trace: seq<Effect>, held: Option<Handle>, next: Handle, e: Effect)
    requires SessionInvariant(trace, held, next)
    requires e.RemoveDir? || e.EnsureDir? || e.Exec?
    ensures SessionInvariant(trace + [e], held, next)
  {
    AppendEffect(trace, e);
  }

  /** Killing the held handle and forgetting it. */
  lemma KillStep(trace: seq<Effect>, h: Handle, next: Handle)
    requires SessionInvariant(trace, Some(h), next)
    ensures SessionInvariant(trace + [Kill(h)], None, next)
  {
    AppendEffect(trace, Kill(h));
    assert Live(trace, h);
  }

  /** Spawning under the next fresh handle while none is held. */
  lemma SpawnStep(trace: seq<Effect>, next: Handle, tool: string, cmd: Command)
    requires SessionInvariant(trace, None, next)
    ensures SessionInvariant(trace + [Spawn(tool, cmd, next)], Some(next), next + 1)
  {
    AppendEffect(trace, Spawn(tool, cmd, next));
    assert next !in Spawned(trace);
    assert KillCount(trace, next) == 0;
  }

  /**
   * One `setSkin` call, whatever its outcomes, keeps the session invariant:
   * afterwards the handle it leaves held is the only live overlay, and no
   * handle has been killed twice.
   */
  lemma SetSkinKeepsInvariant(userData: string, leaguePath: string, skin: SkinRef,
                              trace: seq<Effect>, held: Option<Handle>, next: Handle, o: Outcomes)
    requires SessionInvariant(trace, held, next)
    ensures SessionInvariant(trace + SetSkinEffects(userData, leaguePath, skin, held, next, o),
                             HeldAfter(held, next, o), if AllOk(o) then next + 1 else next)
  {
    var temp := TempDir(userData);
    var t, done := trace + [RemoveDir(temp)], [RemoveDir(temp)];
    QuietStep(trace, held, next, RemoveDir(temp));
    if !o.removeOk {
      return;
    }
    QuietStep(t, held, next, EnsureDir(temp));
    AppendAssoc(trace, done, [EnsureDir(temp)]);
    t, done := t + [EnsureDir(temp)], done + [EnsureDir(temp)];
    if !o.ensureOk {
      return;
    }
    AppendAssoc(trace, done, KillHeld(held));
    if held.Some? {
      KillStep(t, held.value, next);
    } else {
      assert done + KillHeld(held) == done;
    }
    t, done := t + KillHeld(held), done + KillHeld(held);
    var importing := Exec(CslolManagerExecutable(userData), ImportCommand(userData, leaguePath, skin));
    QuietStep(t, None, next, importing);
    AppendAssoc(trace, done, [importing]);
    t, done := t + [importing], done + [importing];
    if !o.importOk {
      return;
    }
    var packaging := Exec(CslolManagerExecutable(userData), MkOverlayCommand(userData, leaguePath));
    QuietStep(t, None, next, packaging);
    AppendAssoc(trace, done, [packaging]);
    t, done := t + [packaging], done + [packaging];
    if !o.mkoverlayOk {
      return;
    }
    var spawning := Spawn(CslolManagerExecutable(userData), RunOverlayCommand(userData, leaguePath), next);
    SpawnStep(t, next, spawning.tool, spawning.cmd);
    AppendAssoc(trace, done, [spawning]);
  }

  /** At most one overlay is live at any time, and it is the held one. */
  lemma AtMostOneLiveOverlay(trace: seq<Effect>, held: Option<Handle>, next: Handle, h1: Handle, h2: Handle)
    requires SessionInvariant(trace, held, next)
    requires Live(trace, h1) && Live(trace, h2)
    ensures h1 == h2 && held == Some(h1)
  {
  }


  // ---------------------------------------------------------------------
  // Calls that overlap: the segments between the awaits of `setSkin`
  // ---------------------------------------------------------------------

  /** The module state a segment of a call reads and writes. */
  datatype State = State(held: Option<Handle>, next: Handle, trace: seq<Effect>)

  /** The awaited step a suspended call waits for. */
  datatype Await = Removing | Ensuring | Importing | Packaging

  /** A `setSkin` call suspended at an `await`. */
  datatype Call = Call(skin: SkinRef, leaguePath: string, at: Await)

  /** The state after a segment, and the call when it is suspended again (none once it has finished). */
  datatype Segment = Segment(state: State, pending: Option<Call>)

  /**
   * The segment that runs once the League path is known: start removing the
   * temp directory and wait for it. Nothing before it touches the state.
   */
  function Started(userData: string, s: State, skin: SkinRef, leaguePath: string): (g: Segment)
  {
    Segment(s.(trace := s.trace + [RemoveDir(TempDir(userData))]), Some(Call(skin, leaguePath, Removing)))
  }

  /**
   * The segment that runs when the step `call` waits for settles: a failure
   * ends the call (the promise rejects); otherwise the call performs the
   * effects up to its next `await`, or spawns the overlay and finishes.
   * Killing and forgetting the held overlay and starting `import` happen in
   * one segment, as do the spawn and the assignment of its handle.
   */
  function Settled(userData: string, s: State, call: Call, ok: bool): (g: Segment)
  {
    var tool := CslolManagerExecutable(userData);
    if !ok then Segment(s, None)
    else
      match call.at
      case Removing =>
        Segment(s.(trace := s.trace + [EnsureDir(TempDir(userData))]), Some(call.(at := Ensuring)))
      case Ensuring =>
        var importing := Exec(tool, ImportCommand(userData, call.leaguePath, call.skin));
        Segment(State(None, s.next, s.trace + KillHeld(s.held) + [importing]), Some(call.(at := Importing)))
      case Importing =>
        var packaging := Exec(tool, MkOverlayCommand(userData, call.leaguePath));
        Segment(s.(trace := s.trace + [packaging]), Some(call.(at := Packaging)))
      case Packaging =>
        var spawning := Spawn(tool, RunOverlayCommand(userData, call.leaguePath), s.next);
        Segment(State(Some(s.next), s.next + 1, s.trace + [spawning]), None)
  }

  /** One call whose segments run back to back, with no other call's segment in between. */
  function Serial(userData: string, s: State, skin: SkinRef, leaguePath: string, o: Outcomes): (r: State)
  {
    var call := Call(skin, leaguePath, Removing);
    var removed := Settled(userData, Started(userData, s, skin, leaguePath).state, call, o.removeOk).state;
    if !o.removeOk then removed else
    var ensured := Settled(userData, removed, call.(at := Ensuring), o.ensureOk).state;
    if !o.ensureOk then ensured else
    var imported := Settled(userData, ensured, call.(at := Importing), o.importOk).state;
    if !o.importOk then imported else
    Settled(userData, imported, call.(at := Packaging), o.mkoverlayOk).state
  }

  /**
   * A call that does not overlap another one appends exactly the effects
   * of `SetSkinEffects` and leaves the handles `HeldAfter` says.
   */
  lemma SerialIsSetSkin(userData: string, s: State, skin: SkinRef, leaguePath: string, o: Outcomes)
    ensures Serial(userData, s, skin, leaguePath, o)
         == State(HeldAfter(s.held, s.next, o), if AllOk(o) then s.next + 1 else s.next,
                  s.trace + SetSkinEffects(userData, leaguePath, skin, s.held, s.next, o))
  {
    var temp, tool := TempDir(userData), CslolManagerExecutable(userData);
    var done := [RemoveDir(temp)];
    if o.removeOk {
      AppendAssoc(s.trace, done, [EnsureDir(temp)]);
      done := done + [EnsureDir(temp)];
      if o.ensureOk {
        var importing := Exec(tool, ImportCommand(userData, leaguePath, skin));
        AppendAssoc(s.trace, done, KillHeld(s.held));
        AppendAssoc(s.trace, done + KillHeld(s.held), [importing]);
        done := done + KillHeld(s.held) + [importing];
        if o.importOk {
          var packaging := Exec(tool, MkOverlayCommand(userData, leaguePath));
          AppendAssoc(s.trace, done, [packaging]);
          done := done + [packaging];
          if o.mkoverlayOk {
            AppendAssoc(s.trace, done, [Spawn(tool, RunOverlayCommand(userData, leaguePath), s.next)]);
          }
        }
      }
    }
  }

  /**
   * What holds however the segments of several calls interleave: the held
   * handle is live, every handle spawned is below `next`, no handle is
   * killed twice and only spawned handles are killed. Unlike
   * `SessionInvariant`, other overlays may be live too.
   */
  ghost predicate HandlesSound(s: State)
  {
    && (s.held.Some? ==> Live(s.trace, s.held.value))
    && (forall h: Handle :: h in Spawned(s.trace) ==> h < s.next)
    && (forall h: Handle :: KillCount(s.trace, h) <= 1)
    && (forall h: Handle :: KillCount(s.trace, h) > 0 ==> h in Spawned(s.trace))
  }

  /** The one-live invariant of calls run one at a time implies the interleaving one. */
  lemma InvariantIsSound(trace: seq<Effect>, held: Option<Handle>, next: Handle)
    requires SessionInvariant(trace, held, next)
    ensures HandlesSound(State(held, next, trace))
  {
  }

  /** A directory step or the start of an exec leaves the handles as they are. */
  lemma QuietKeepsHandles(s: State, e: Effect)
    requires HandlesSound(s)
    requires e.RemoveDir? || e.EnsureDir? || e.Exec?
    ensures HandlesSound(s.(trace := s.trace + [e]))
  {
    AppendEffect(s.trace, e);
  }

  /** Killing and forgetting whatever is held, then starting an exec. */
  lemma KillThenExecKeepsHandles(s: State, e: Effect)
    requires HandlesSound(s)
    requires e.Exec?
    ensures HandlesSound(State(None, s.next, s.trace + KillHeld(s.held) + [e]))
  {
    var t := s.trace + KillHeld(s.held);
    if s.held.Some? {
      AppendEffect(s.trace, Kill(s.held.value));
    } else {
      assert t == s.trace;
    }
    AppendEffect(t, e);
  }

  /** Spawning under `next` and holding it, whether or not another handle was held. */
  lemma SpawnKeepsHandles(s: State, tool: string, cmd: Command)
    requires HandlesSound(s)
    ensures HandlesSound(State(Some(s.next), s.next + 1, s.trace + [Spawn(tool, cmd, s.next)]))
  {
    AppendEffect(s.trace, Spawn(tool, cmd, s.next));
    assert s.next !in Spawned(s.trace);
    assert KillCount(s.trace, s.next) == 0;
  }

  lemma StartedKeepsHandles(userData: string, s: State, skin: SkinRef, leaguePath: string)
    requires HandlesSound(s)
    ensures HandlesSound(Started(userData, s, skin, leaguePath).state)
  {
    QuietKeepsHandles(s, RemoveDir(TempDir(userData)));
  }

  /** Every segment of every call keeps `HandlesSound`, whatever ran before it. */
  lemma SettledKeepsHandles(userData: string, s: State, call: Call, ok: bool)
    requires HandlesSound(s)
    ensures HandlesSound(Settled(userData, s, call, ok).state)
  {
    if ok {
      var tool := CslolManagerExecutable(userData);
      match call.at
      case Removing =>
        QuietKeepsHandles(s, EnsureDir(TempDir(userData)));
      case Ensuring =>
        KillThenExecKeepsHandles(s, Exec(tool, ImportCommand(userData, call.leaguePath, call.skin)));
      case Importing =>
        QuietKeepsHandles(s, Exec(tool, MkOverlayCommand(userData, call.leaguePath)));
      case Packaging =>
        SpawnKeepsHandles(s, tool, RunOverlayCommand(userData, call.leaguePath));
    }
  }

  /** A step of the event loop: a new call reaches its first `await`, or a waited step settles. */
  datatype Step = StartCall(skin: SkinRef, leaguePath: string) | SettleCall(index: nat, ok: bool)

  /** The module state and every call begun so far: suspended, or none once finished. */
  datatype Loop = Loop(state: State, calls: seq<Option<Call>>)

  /** Settling a call that is not waiting changes nothing. */
  function Apply(userData: string, l: Loop, step: Step): (r: Loop)
  {
    match step
    case StartCall(skin, leaguePath) =>
      var g := Started(userData, l.state, skin, leaguePath);
      Loop(g.state, l.calls + [g.pending])
    case SettleCall(k, ok) =>
      if k < |l.calls| && l.calls[k].Some? then
        var g := Settled(userData, l.state, l.calls[k].value, ok);
        Loop(g.state, l.calls[k := g.pending])
      else l
  }

  /** The steps taken in order, calls interleaving as the schedule says. */
  function Run(userData: string, l: Loop, steps: seq<Step>): (r: Loop)
    decreases |steps|
  {
    if steps == [] then l else Run(userData, Apply(userData, l, steps[0]), steps[1..])
  }

  /** Under every interleaving of calls the held handle is live and no handle is killed twice. */
  lemma {:induction false} RunKeepsHandles(userData: string, l: Loop, steps: seq<Step>)
    requires HandlesSound(l.state)
    ensures HandlesSound(Run(userData, l, steps).state)
    decreases |steps|
  {
    if steps != [] {
      match steps[0] {
        case StartCall(skin, leaguePath) =>
          StartedKeepsHandles(userData, l.state, skin, leaguePath);
        case SettleCall(k, ok) =>
          if k < |l.calls| && l.calls[k].Some? {
            SettledKeepsHandles(userData, l.state, l.calls[k].value, ok);
          }
      }
      RunKeepsHandles(userData, Apply(userData, l, steps[0]), steps[1..]);
    }
  }

  /**
   * Call A starts and reaches its `import` await (nothing held, so nothing
   * killed); call B then does the same, finding nothing held either; A
   * finishes, then B.
   */
  function OverlapSchedule(a: SkinRef, b: SkinRef, leaguePath: string): (r: seq<Step>)
  {
    [StartCall(a, leaguePath), SettleCall(0, true), SettleCall(0, true),
     StartCall(b, leaguePath), SettleCall(1, true), SettleCall(1, true),
     SettleCall(0, true), SettleCall(0, true), SettleCall(1, true), SettleCall(1, true)]
  }

  /** The effects of `OverlapSchedule` up to B's `ensureDir`. */
  function OverlapHalfway(userData: string, leaguePath: string, a: SkinRef): (r: seq<Effect>)
  {
    var temp := TempDir(userData);
    [RemoveDir(temp)] + [EnsureDir(temp)] + [Exec(CslolManagerExecutable(userData), ImportCommand(userData, leaguePath, a))]
      + [RemoveDir(temp)] + [EnsureDir(temp)]
  }

  /** All the effects of `OverlapSchedule`: two spawns and no kill. */
  function OverlapTrace(userData: string, leaguePath: string, a: SkinRef, b: SkinRef): (r: seq<Effect>)
  {
    var tool := CslolManagerExecutable(userData);
    var mk, run := MkOverlayCommand(userData, leaguePath), RunOverlayCommand(userData, leaguePath);
    OverlapHalfway(userData, leaguePath, a) + [Exec(tool, ImportCommand(userData, leaguePath, b))]
      + [Exec(tool, mk)] + [Spawn(tool, run, 0)] + [Exec(tool, mk)] + [Spawn(tool, run, 1)]
  }

  /** The loop after the first five steps of `OverlapSchedule`. */
  function OverlapMidway(userData: string, leaguePath: string, a: SkinRef, b: SkinRef): (r: Loop)
  {
    Loop(State(None, 0, OverlapHalfway(userData, leaguePath, a)),
         [Some(Call(a, leaguePath, Importing)), Some(Call(b, leaguePath, Ensuring))])
  }

  lemma OverlapFirstHalf(userData: string, leaguePath: string, a: SkinRef, b: SkinRef)
    ensures var steps := OverlapSchedule(a, b, leaguePath);
      Run(userData, Loop(State(None, 0, []), []), steps)
        == Run(userData, OverlapMidway(userData, leaguePath, a, b), steps[5..])
  {
    var steps := OverlapSchedule(a, b, leaguePath);
    var temp, tool := TempDir(userData), CslolManagerExecutable(userData);
    var callA, callB := Call(a, leaguePath, Removing), Call(b, leaguePath, Removing);
    var t2 := [RemoveDir(temp)] + [EnsureDir(temp)];
    var l0 := Loop(State(None, 0, []), []);
    var l1 := Loop(State(None, 0, [RemoveDir(temp)]), [Some(callA)]);
    var l2 := Loop(State(None, 0, t2), [Some(callA.(at := Ensuring))]);
    var l3 := Loop(State(None, 0, t2 + [Exec(tool, ImportCommand(userData, leaguePath, a))]), [Some(callA.(at := Importing))]);
    var l4 := Loop(State(None, 0, l3.state.trace + [RemoveDir(temp)]), [Some(callA.(at := Importing)), Some(callB)]);
    assert Apply(userData, l0, steps[0]) == l1;
    assert Apply(userData, l1, steps[1]) == l2;
    assert Apply(userData, l2, steps[2]) == l3 by { assert t2 + KillHeld(None) == t2; }
    assert Apply(userData, l3, steps[3]) == l4;
    assert Apply(userData, l4, steps[4]) == OverlapMidway(userData, leaguePath, a, b);
    RunFirst(userData, l0, steps, 0);
    RunFirst(userData, l1, steps, 1);
    RunFirst(userData, l2, steps, 2);
    RunFirst(userData, l3, steps, 3);
    RunFirst(userData, l4, steps, 4);
  }

  lemma OverlapSecondHalf(userData: string, leaguePath: string, a: SkinRef, b: SkinRef)
    ensures Run(userData, OverlapMidway(userData, leaguePath, a, b), OverlapSchedule(a, b, leaguePath)[5..])
         == Loop(State(Some(1), 2, OverlapTrace(userData, leaguePath, a, b)), [None, None])
  {
    var steps := OverlapSchedule(a, b, leaguePath);
    var tool := CslolManagerExecutable(userData);
    var mk, run := MkOverlayCommand(userData, leaguePath), RunOverlayCommand(userData, leaguePath);
    var callA, callB := Call(a, leaguePath, Importing), Call(b, leaguePath, Importing);
    var t5 := OverlapHalfway(userData, leaguePath, a);
    var t6 := t5 + [Exec(tool, ImportCommand(userData, leaguePath, b))];
    var t7 := t6 + [Exec(tool, mk)];
    var t8 := t7 + [Spawn(tool, run, 0)];
    var t9 := t8 + [Exec(tool, mk)];
    var l5 := OverlapMidway(userData, leaguePath, a, b);
    var l6 := Loop(State(None, 0, t6), [Some(callA), Some(callB)]);
    var l7 := Loop(State(None, 0, t7), [Some(callA.(at := Packaging)), Some(callB)]);
    var l8 := Loop(State(Some(0), 1, t8), [None, Some(callB)]);
    var l9 := Loop(State(Some(0), 1, t9), [None, Some(callB.(at := Packaging))]);
    assert Apply(userData, l5, steps[5]) == l6 by { assert t5 + KillHeld(None) == t5; }
    assert Apply(userData, l6, steps[6]) == l7;
    assert Apply(userData, l7, steps[7]) == l8;
    assert Apply(userData, l8, steps[8]) == l9;
    RunFirst(userData, l5, steps, 5);
    RunFirst(userData, l6, steps, 6);
    RunFirst(userData, l7, steps, 7);
    RunFirst(userData, l8, steps, 8);
    RunFirst(userData, l9, steps, 9);
    assert steps[10..] == [];
  }

  /** Both overlays spawned by `OverlapSchedule` are still live at its end. */
  lemma OverlapTraceLive(userData: string, leaguePath: string, a: SkinRef, b: SkinRef)
    ensures var trace := OverlapTrace(userData, leaguePath, a, b);
      Live(trace, 0) && Live(trace, 1)
  {
    var trace := OverlapTrace(userData, leaguePath, a, b);
    forall i | 0 <= i < |trace|
      ensures !trace[i].Kill?
    {
    }
    KillFree(trace);
    SpawnedAt(trace, 7);
    SpawnedAt(trace, 9);
  }

  /** A trace without kills kills nothing. */
  lemma {:induction false} KillFree(trace: seq<Effect>)
    requires forall i :: 0 <= i < |trace| ==> !trace[i].Kill?
    ensures forall h: Handle :: KillCount(trace, h) == 0
    decreases |trace|
  {
    if trace != [] {
      var n := |trace| - 1;
      assert forall i :: 0 <= i < n ==> trace[..n][i] == trace[i];
      KillFree(trace[..n]);
    }
  }

  /** A spawn anywhere in a trace puts its handle among the spawned ones. */
  lemma {:induction false} SpawnedAt(trace: seq<Effect>, i: nat)
    requires i < |trace| && trace[i].Spawn?
    ensures trace[i].handle in Spawned(trace)
    decreases |trace|
  {
    var n := |trace| - 1;
    if i < n {
      assert trace[..n][i] == trace[i];
      SpawnedAt(trace[..n], i);
    }
  }

  /**
   * Two overlapping calls can orphan an overlay: after `OverlapSchedule`
   * from a fresh session, B's handle is held while A's overlay, never
   * killed, is live too, so `SessionInvariant` fails.
   */
  lemma OverlappingCallsOrphanOverlay(userData: string, leaguePath: string, a: SkinRef, b: SkinRef)
    ensures var l := Run(userData, Loop(State(None, 0, []), []), OverlapSchedule(a, b, leaguePath));
      && l.state.held == Some(1)
      && Live(l.state.trace, 0) && Live(l.state.trace, 1)
      && !SessionInvariant(l.state.trace, l.state.held, l.state.next)
  {
    OverlapFirstHalf(userData, leaguePath, a, b);
    OverlapSecondHalf(userData, leaguePath, a, b);
    OverlapTraceLive(userData, leaguePath, a, b);
  }

  /** Running a schedule from its `k`-th step: take that step, then the rest. */
  lemma RunFirst(userData: string, l: Loop, steps: seq<Step>, k: nat)
    requires k < |steps|
    ensures Run(userData, l, steps[k..]) == Run(userData, Apply(userData, l, steps[k]), steps[k + 1..])
  {
    assert steps[k..][1..] == steps[k + 1..];
  }

  // ---------------------------------------------------------------------
  // The session: the module-level `runningProcess` and what has happened
  // ---------------------------------------------------------------------

  class OverlaySession {
    /** The application's user-data directory all locations hang off. */
    const userData: string
    /** `runningProcess`: the handle of the overlay started last, or none. */
    var runningProcess: Option<Handle>
    /** Every effect performed so far, in order. */
    var trace: seq<Effect>
    /** The handle the next spawn gets. */
    var nextHandle: Handle

    /** The state the segments of `setSkin` calls read and write. */
    function Snapshot(): State
      reads this
    {
      State(runningProcess, nextHandle, trace)
    }

    /** What holds while calls run one at a time (see `OverlappingCallsOrphanOverlay` for when they do not). */
    ghost predicate Valid()
      reads this
    {
      SessionInvariant(trace, runningProcess, nextHandle)
    }

    constructor (userData: string)
      ensures Valid() && HandlesSound(Snapshot())
      ensures this.userData == userData && runningProcess.None? && trace == []
    {
      this.userData := userData;
      runningProcess := None;
      trace := [];
      nextHandle := 0;
    }

    /** A `setSkin` call runs up to its first `await` on the file system. */
    method Start(skin: SkinRef, leaguePath: string) returns (call: Call)
      requires HandlesSound(Snapshot())
      modifies this
      ensures HandlesSound(Snapshot())
      ensures Segment(Snapshot(), Some(call)) == Started(userData, old(Snapshot()), skin, leaguePath)
    {
      StartedKeepsHandles(userData, Snapshot(), skin, leaguePath);
      trace := trace + [RemoveDir(TempDir(userData))];
      call := Call(skin, leaguePath, Removing);
    }

    /**
     * The step `call` waits for settles with `ok`: the call runs up to its
     * next `await` and is returned suspended again, or it finishes (none).
     */
    method Settle(call: Call, ok: bool) returns (pending: Option<Call>)
      requires HandlesSound(Snapshot())
      modifies this
      ensures HandlesSound(Snapshot())
      ensures Segment(Snapshot(), pending) == Settled(userData, old(Snapshot()), call, ok)
    {
      ghost var before := Snapshot();
      if !ok {
        pending := None;
      } else {
        var tool := CslolManagerExecutable(userData);
        match call.at {
          case Removing =>
            trace := trace + [EnsureDir(TempDir(userData))];
            pending := Some(call.(at := Ensuring));
          case Ensuring =>
            if runningProcess.Some? {
              trace := trace + [Kill(runningProcess.value)];
              runningProcess := None;
            }
            trace := trace + [Exec(tool, ImportCommand(userData, call.leaguePath, call.skin))];
            pending := Some(call.(at := Importing));
          case Importing =>
            trace := trace + [Exec(tool, MkOverlayCommand(userData, call.leaguePath))];
            pending := Some(call.(at := Packaging));
          case Packaging =>
            var handle := nextHandle;
            trace := trace + [Spawn(tool, RunOverlayCommand(userData, call.leaguePath), handle)];
            nextHandle := nextHandle + 1;
            runningProcess := Some(handle);
            pending := None;
        }
      }
      assert Snapshot() == Settled(userData, before, call, ok).state;
      SettledKeepsHandles(userData, before, call, ok);
    }

    /**
     * `setSkin` awaited to completion with no other call in between: clear
     * and re-create the temp directory, kill and forget the running overlay,
     * import the skin, build the overlay and spawn it. `ok` is false when an
     * awaited step fails (the promise rejects).
     */
    method SetSkin(skin: SkinRef, leaguePath: string, outcomes: Outcomes) returns (ok: bool)
      requires Valid()
      modifies this
      ensures Valid()
      ensures ok == AllOk(outcomes)
      ensures trace == old(trace) + SetSkinEffects(userData, leaguePath, skin, old(runningProcess), old(nextHandle), outcomes)
      ensures runningProcess == HeldAfter(old(runningProcess), old(nextHandle), outcomes)
      ensures nextHandle == if ok then old(nextHandle) + 1 else old(nextHandle)
    {
      ghost var before := Snapshot();
      SerialIsSetSkin(userData, before, skin, leaguePath, outcomes);
      SetSkinKeepsInvariant(userData, leaguePath, skin, trace, runningProcess, nextHandle, outcomes);
      InvariantIsSound(trace, runningProcess, nextHandle);
      var call := Start(skin, leaguePath);
      var pending := Settle(call, outcomes.removeOk);
      if pending.None? {
        return false;
      }
      pending := Settle(pending.value, outcomes.ensureOk);
      if pending.None? {
        return false;
      }
      pending := Settle(pending.value, outcomes.importOk);
      if pending.None? {
        return false;
      }
      pending := Settle(pending.value, outcomes.mkoverlayOk);
      ok := outcomes.mkoverlayOk;
    }
  }
}
