/** The downtime actions panel: which of the eight downtime options can be
    added for the selected person, given the actions already taken. */
module DowntimeActions {
  import opened Actions

  /** The eight options of the panel, named `do`, `make`, `buy`, `net`,
      `doc`, `care`, `emp` and `over` in the panel's state. */
  datatype DowntimeOption = Do | Make | Buy | Net | Doc | Care | Emp | Over

  /** The action type an option files. */
  function OptionName(opt: DowntimeOption): string
  {
    match opt
    case Do => "do"
    case Make => "make"
    case Buy => "buy"
    case Net => "net"
    case Doc => "doc"
    case Care => "care"
    case Emp => "emp"
    case Over => "over"
  }

  /** The four options a player takes at most once. */
  predicate Limited(opt: DowntimeOption)
  {
    opt.Doc? || opt.Care? || opt.Emp? || opt.Over?
  }

  const AllOptions: set<DowntimeOption> := {Do, Make, Buy, Net, Doc, Care, Emp, Over}

  /** `isOptionDisabled`: for a player, `doc` and `emp` can be taken once,
      `care` only after `doc` and once, `over` only after `emp` and once;
      for anyone else those four are closed. Every other option is open. */
  function IsOptionDisabled(person: string, opt: DowntimeOption, player: seq<Action>): (disabled: bool)
    ensures !Limited(opt) ==> !disabled
    ensures person != "player" ==> (disabled <==> Limited(opt))
  {
    if person == "player" then
      match opt
      case Doc => HasAction(player, "doc")
      case Care => !HasAction(player, "doc") || HasAction(player, "care")
      case Emp => HasAction(player, "emp")
      case Over => !HasAction(player, "emp") || HasAction(player, "over")
      case _ => false
    else
      Limited(opt)
  }

  /** How many actions of the list have type `t`. */
  function CountOf(list: seq<Action>, t: string): (n: nat)
    ensures n <= |list|
    ensures n > 0 <==> HasAction(list, t)
    decreases |list|
  {
    if list == [] then 0
    else
      var rest := CountOf(list[..|list| - 1], t);
      assert HasAction(list, t) <==> HasAction(list[..|list| - 1], t) || list[|list| - 1].action == t by {
        if HasAction(list[..|list| - 1], t) {
          var i :| 0 <= i < |list| - 1 && list[..|list| - 1][i].action == t;
          assert list[i].action == t;
        }
        if HasAction(list, t) && list[|list| - 1].action != t {
          var i :| 0 <= i < |list| && list[i].action == t;
          assert list[..|list| - 1][i].action == t;
        }
      }
      rest + if list[|list| - 1].action == t then 1 else 0
  }

  /** What the table is for: a player takes `doc`, `care`, `emp` and
      `over` at most once each, `care` only with a `doc` and `over` only
      with an `emp`. */
  predicate PlayerListSound(list: seq<Action>)
  {
    && CountOf(list, "doc") <= 1 && CountOf(list, "care") <= 1
    && CountOf(list, "emp") <= 1 && CountOf(list, "over") <= 1
    && (CountOf(list, "care") > 0 ==> CountOf(list, "doc") > 0)
    && (CountOf(list, "over") > 0 ==> CountOf(list, "emp") > 0)
  }

  /** The table's rules for a player are exactly what keeps the list
      sound: an option is open precisely when adding it leaves a sound list
      sound. */
  lemma OpenIffAddKeepsSound(list: seq<Action>, opt: DowntimeOption, a: Action)
    requires PlayerListSound(list)
    requires a.action == OptionName(opt)
    ensures !IsOptionDisabled("player", opt, list) <==> PlayerListSound(list + [a])
  {
    var next := list + [a];
    assert next[..|next| - 1] == list;
    assert CountOf(next, "doc") == CountOf(list, "doc") + (if a.action == "doc" then 1 else 0);
    assert CountOf(next, "care") == CountOf(list, "care") + (if a.action == "care" then 1 else 0);
    assert CountOf(next, "emp") == CountOf(list, "emp") + (if a.action == "emp" then 1 else 0);
    assert CountOf(next, "over") == CountOf(list, "over") + (if a.action == "over" then 1 else 0);
  }

  /** Once a player has taken `doc` or `emp`, that option stays closed
      whatever is added later. */
  lemma ClosedStaysClosed(list: seq<Action>, a: Action, opt: DowntimeOption)
    requires opt == Doc || opt == Emp
    requires IsOptionDisabled("player", opt, list)
    ensures IsOptionDisabled("player", opt, list + [a])
  {
    var i :| 0 <= i < |list| && list[i].action == OptionName(opt);
    assert (list + [a])[i].action == OptionName(opt);
  }

  /** The panel's form state (`ctrl.state`). */
  datatype PanelState = PanelState(
    person: string,
    skill: string,
    spec: string,
    add: string,
    ranksSkill: int,
    bonusSkill: int,
    ranksSpec: int,
    bonusSpec: int,
    /** `option_disable`: for each option, whether it is closed. */
    optionDisable: map<DowntimeOption, bool>,
    monthTab: string,
    disableJobEdit: bool)

  /** The options entry agrees with the table for the state's person. */
  predicate OptionsCurrent(st: PanelState, player: seq<Action>)
  {
    && st.optionDisable.Keys == AllOptions
    && forall o | o in st.optionDisable :: st.optionDisable[o] == IsOptionDisabled(st.person, o, player)
  }

  /** The downtime actions panel over an actions factory. */
  class Panel {
    /** The actions factory the panel reads and files into. */
    const log: ActionLog
    var state: PanelState

    /** The controller's set-up: `defaultState` over the given factory. */
    constructor (log: ActionLog, jobLevel: int)
      ensures this.log == log
      ensures state.skill == "" && state.spec == "" && state.add == ""
      ensures state.person == if |log.player| < 4 then "player" else "hireling"
      ensures state.ranksSkill == 0 && state.bonusSkill == 0 && state.ranksSpec == 0 && state.bonusSpec == 0
      ensures state.monthTab == "month1" && state.disableJobEdit == (jobLevel > 0)
      ensures OptionsCurrent(state, log.player)
      ensures |log.player| >= 4 ==> forall o | o in state.optionDisable :: state.optionDisable[o] <==> Limited(o)
    {
      this.log := log;
      new;
      DefaultState(jobLevel);
    }

    /** `updateOptions`: recompute all eight entries from the table; the
        rest of the state is kept. */
    method UpdateOptions()
      modifies this
      ensures state == old(state).(optionDisable := state.optionDisable)
      ensures OptionsCurrent(state, log.player)
    {
      var person, player := state.person, log.player;
      state := state.(optionDisable := map o | o in AllOptions :: IsOptionDisabled(person, o, player));
    }

    /** `defaultState`: clear the form, pick the player while they have
        fewer than four actions and a hireling after that, and recompute
        the options. `jobLevel` is the job level of the assets factory. */
    method DefaultState(jobLevel: int)
      modifies this
      ensures state.skill == "" && state.spec == "" && state.add == ""
      ensures state.person == if |log.player| < 4 then "player" else "hireling"
      ensures state.ranksSkill == 0 && state.bonusSkill == 0 && state.ranksSpec == 0 && state.bonusSpec == 0
      ensures state.monthTab == "month1" && state.disableJobEdit == (jobLevel > 0)
      ensures OptionsCurrent(state, log.player)
      ensures |log.player| >= 4 ==> forall o | o in state.optionDisable :: state.optionDisable[o] <==> Limited(o)
    {
      var person := if log.GetFilterCount(Player) < 4 then "player" else "hireling";
      state := PanelState(person, "", "", "", 0, 0, 0, 0, map[], "month1", jobLevel > 0);
      UpdateOptions();
    }
  }
}
