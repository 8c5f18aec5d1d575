/** The downtime action lists: one list of actions per kind of person
    (player, contact, hireling), and the month the downtime is for. */
module Actions {
  import opened Wrappers

  /** The three lists an action can be filed under. */
  datatype Filter = Player | Contact | Hireling

  /** An action: its type (`action`), the details the user entered, and
      the list it was filed under, set when it is added. */
  datatype Action = Action(action: string, details: string, filter: Option<Filter>)

  /** A month's names in the three lengths the table offers. */
  datatype MonthNames = MonthNames(short: string, med: string, long: string)

  /** Entry `i` of the month table, January being 0. */
  function MonthOf(i: nat): MonthNames
    requires i < 12
  {
    match i
    case 0 => MonthNames("Jan", "Jan", "January")
    case 1 => MonthNames("Feb", "Feb", "February")
    case 2 => MonthNames("Mar", "March", "March")
    case 3 => MonthNames("Apr", "April", "April")
    case 4 => MonthNames("May", "May", "May")
    case 5 => MonthNames("Jun", "June", "June")
    case 6 => MonthNames("Jul", "July", "July")
    case 7 => MonthNames("Aug", "Aug", "August")
    case 8 => MonthNames("Sep", "Sept", "September")
    case 9 => MonthNames("Oct", "Oct", "October")
    case 10 => MonthNames("Nov", "Nov", "November")
    case _ => MonthNames("Dec", "Dec", "December")
  }

  /** JavaScript's `x % 12`: the remainder takes the sign of the dividend. */
  function JsRem12(a: int): (r: int)
    ensures -12 < r < 12 && (a - r) % 12 == 0
    ensures a >= 0 ==> r >= 0
    ensures a < 0 ==> r <= 0
  {
    if a >= 0 then a % 12 else -((-a) % 12)
  }

  /** A property lookup `month[kind]`: None for any other key. */
  function NameOfKind(m: MonthNames, kind: string): (r: Option<string>)
    ensures r.Some? <==> kind in {"short", "med", "long"}
    ensures kind == "short" ==> r == Some(m.short)
    ensures kind == "med" ==> r == Some(m.med)
    ensures kind == "long" ==> r == Some(m.long)
  {
    if kind == "short" then Some(m.short)
    else if kind == "med" then Some(m.med)
    else if kind == "long" then Some(m.long)
    else None
  }

  /** The name `getCurrentMonthName` gives for a month number and an
      offset: the month `offset` months on, in the requested length. None
      stands for both failures of the lookup: an unknown length (the
      property is undefined) and a negative sum that is not a multiple of
      12 (the row is undefined, and reading a property of it throws a
      TypeError). */
  function MonthName(current: int, kind: Option<string>, offset: Option<int>): (r: Option<string>)
    ensures var sum := current + (if offset.Some? then offset.value else 0);
            var k := if kind.Some? then kind.value else "short";
            && (r.Some? <==> (sum >= 0 || sum % 12 == 0) && k in {"short", "med", "long"})
            && (sum >= 0 ==> r == NameOfKind(MonthOf(sum % 12), k))
            && (sum < 0 && sum % 12 == 0 ==> r == NameOfKind(MonthOf(0), k))
    ensures 0 <= current < 12 && kind.None? && offset.None? ==> r == Some(MonthOf(current).short)
  {
    var k := if kind.Some? then kind.value else "short";
    var o := if offset.Some? then offset.value else 0;
    var i := JsRem12(current + o);
    if 0 <= i < 12 then NameOfKind(MonthOf(i), k) else None
  }

  /** A year later the month has the same name. */
  lemma MonthNamePeriodic(current: int, kind: Option<string>, offset: int)
    requires current + offset >= 0
    ensures MonthName(current, kind, Some(offset + 12)) == MonthName(current, kind, Some(offset))
  {
    assert (current + offset + 12) % 12 == (current + offset) % 12;
  }

  /** `splice(num, 1)`: the start is counted from the end when negative and
      clamped to the list; one element goes from there if there is one. */
  function SpliceOne<T>(xs: seq<T>, num: int): (r: seq<T>)
    ensures 0 <= num < |xs| ==> r == xs[..num] + xs[num + 1..]
    ensures num >= |xs| ==> r == xs
    ensures -|xs| <= num < 0 ==> r == xs[..|xs| + num] + xs[|xs| + num + 1..]
    ensures num < -|xs| && xs != [] ==> r == xs[1..]
    ensures |r| == if xs == [] then 0 else |xs| - (if num >= |xs| then 0 else 1)
    ensures forall x | x in r :: x in xs
  {
    var start := if num < 0 then (if |xs| + num > 0 then |xs| + num else 0)
                 else if num < |xs| then num else |xs|;
    if start < |xs| then
      var r := xs[..start] + xs[start + 1..];
      assert forall x | x in r :: x in xs[..start] || x in xs[start + 1..];
      r
    else xs
  }

  /** Removing the last element undoes appending it, whether counted from
      the start or from the end. */
  lemma SpliceOneAppended<T>(xs: seq<T>, x: T)
    ensures SpliceOne(xs + [x], |xs|) == xs
    ensures SpliceOne(xs + [x], -1) == xs
  {
    assert (xs + [x])[..|xs|] == xs;
  }

  /** Whether some action in the list has type `t`. */
  predicate HasAction(list: seq<Action>, t: string)
  {
    exists i | 0 <= i < |list| :: list[i].action == t
  }

  /** The actions of `xs` filed under `f`, in order. */
  function FiledUnder(xs: seq<Action>, f: Filter): (r: seq<Action>)
    ensures |r| <= |xs|
    decreases |xs|
  {
    if xs == [] then []
    else (if xs[0].filter == Some(f) then [xs[0]] else []) + FiledUnder(xs[1..], f)
  }

  lemma {:induction false} FiledUnderAppend(xs: seq<Action>, ys: seq<Action>, f: Filter)
    ensures FiledUnder(xs + ys, f) == FiledUnder(xs, f) + FiledUnder(ys, f)
    decreases |xs|
  {
    if xs != [] {
      var head := if xs[0].filter == Some(f) then [xs[0]] else [];
      assert (xs + ys)[0] == xs[0] && (xs + ys)[1..] == xs[1..] + ys;
      assert FiledUnder(xs + ys, f) == head + FiledUnder(xs[1..] + ys, f);
      FiledUnderAppend(xs[1..], ys, f);
      assert FiledUnder(xs, f) == head + FiledUnder(xs[1..], f);
    } else {
      assert xs + ys == ys;
    }
  }

  lemma {:induction false} FiledUnderAll(xs: seq<Action>, f: Filter, g: Filter)
    requires forall a | a in xs :: a.filter == Some(f)
    ensures FiledUnder(xs, g) == if f == g then xs else []
    decreases |xs|
  {
    if xs != [] {
      assert xs[0] in xs;
      assert forall a | a in xs[1..] :: a in xs;
      FiledUnderAll(xs[1..], f, g);
      assert FiledUnder(xs, g) == (if f == g then [xs[0]] else []) + FiledUnder(xs[1..], g);
      assert xs == [xs[0]] + xs[1..];
    }
  }

  /** The implication form of `FiledUnderAll` for a list and its own filter. */
  lemma FiledUnderOwn(xs: seq<Action>, f: Filter)
    ensures (forall a | a in xs :: a.filter == Some(f)) ==> FiledUnder(xs, f) == xs
  {
    if forall a | a in xs :: a.filter == Some(f) {
      FiledUnderAll(xs, f, f);
    }
  }

  /** The actions filed under `f` in three lists, each filed wholly under
      one filter, are those of the lists filed under `f`. */
  lemma ConcatFiledUnderOne(p: seq<Action>, c: seq<Action>, h: seq<Action>,
                            fp: Filter, fc: Filter, fh: Filter, f: Filter)
    requires forall a | a in p :: a.filter == Some(fp)
    requires forall a | a in c :: a.filter == Some(fc)
    requires forall a | a in h :: a.filter == Some(fh)
    ensures FiledUnder(p + c + h, f)
            == (if fp == f then p else []) + (if fc == f then c else []) + (if fh == f then h else [])
  {
    FiledUnderAppend(p + c, h, f);
    FiledUnderAppend(p, c, f);
    FiledUnderAll(p, fp, f);
    FiledUnderAll(c, fc, f);
    FiledUnderAll(h, fh, f);
  }

  /** Lists whose actions are filed under player, contact and hireling
      respectively can be recovered from their concatenation. */
  lemma ConcatFiledUnder(p: seq<Action>, c: seq<Action>, h: seq<Action>)
    ensures (forall a | a in p :: a.filter == Some(Player))
            && (forall a | a in c :: a.filter == Some(Contact))
            && (forall a | a in h :: a.filter == Some(Hireling)) ==>
              FiledUnder(p + c + h, Player) == p
              && FiledUnder(p + c + h, Contact) == c
              && FiledUnder(p + c + h, Hireling) == h
  {
    if (forall a | a in p :: a.filter == Some(Player))
       && (forall a | a in c :: a.filter == Some(Contact))
       && (forall a | a in h :: a.filter == Some(Hireling)) {
      ConcatFiledUnderEach(p, c, h);
    }
  }

  lemma ConcatFiledUnderEach(p: seq<Action>, c: seq<Action>, h: seq<Action>)
    requires forall a | a in p :: a.filter == Some(Player)
    requires forall a | a in c :: a.filter == Some(Contact)
    requires forall a | a in h :: a.filter == Some(Hireling)
    ensures FiledUnder(p + c + h, Player) == p
    ensures FiledUnder(p + c + h, Contact) == c
    ensures FiledUnder(p + c + h, Hireling) == h
  {
    ConcatFiledUnderOne(p, c, h, Player, Contact, Hireling, Player);
    assert p + [] + [] == p;
    ConcatFiledUnderOne(p, c, h, Player, Contact, Hireling, Contact);
    assert [] + c + [] == c;
    ConcatFiledUnderOne(p, c, h, Player, Contact, Hireling, Hireling);
    assert [] + [] + h == h;
  }

  /** The state of the actions factory. */
  class ActionLog {
    /** The month number, 0 for January. */
    var current: int
    var player: seq<Action>
    var contact: seq<Action>
    var hireling: seq<Action>

    /** `getFilterActions`: the list filed under `f`. */
    function ListOf(f: Filter): (r: seq<Action>)
      reads this
      ensures Valid() ==> forall a | a in r :: a.filter == Some(f)
      ensures Valid() ==> FiledUnder(r, f) == r
    {
      var r := match f
        case Player => player
        case Contact => contact
        case Hireling => hireling;
      FiledUnderOwn(r, f);
      r
    }

    /** The month is a month of the table and every action sits in the list
        it is filed under. */
    ghost predicate Valid()
      reads this
    {
      && 0 <= current < 12
      && (forall a | a in player :: a.filter == Some(Player))
      && (forall a | a in contact :: a.filter == Some(Contact))
      && (forall a | a in hireling :: a.filter == Some(Hireling))
    }

    /** The factory's initial `defaultState`, with today's month given. */
    constructor (month: int)
      requires 0 <= month < 12
      ensures current == month && player == [] && contact == [] && hireling == []
      ensures Valid()
    {
      new;
      DefaultState(month);
    }

    /** `defaultState`: empty lists and the month given for today. */
    method DefaultState(month: int)
      requires 0 <= month < 12
      modifies this
      ensures current == month && player == [] && contact == [] && hireling == []
      ensures Valid()
    {
      current := month;
      player, contact, hireling := [], [], [];
    }

    /** `getCurrentMonthName`. */
    function GetCurrentMonthName(kind: Option<string>, offset: Option<int>): (r: Option<string>)
      reads this
      requires Valid()
      ensures kind.None? && offset.None? ==> r == Some(MonthOf(current).short)
      ensures offset.Some? && offset.value >= 0 && kind.None? ==>
                r == Some(MonthOf((current + offset.value) % 12).short)
      ensures var sum := current + (if offset.Some? then offset.value else 0);
              sum >= 0 ==> r == NameOfKind(MonthOf(sum % 12), if kind.Some? then kind.value else "short")
    {
      MonthName(current, kind, offset)
    }

    /** `setCurrentMonth`: accept a month number 0 to 11, refuse anything
        else and keep the month. */
    method SetCurrentMonth(change: int) returns (ok: bool)
      modifies this
      ensures ok <==> 0 <= change <= 11
      ensures current == if ok then change else old(current)
      ensures player == old(player) && contact == old(contact) && hireling == old(hireling)
      ensures old(Valid()) ==> Valid()
    {
      if change < 0 || change > 11 {
        return false;
      }
      current := change;
      ok := true;
    }

    /** `hasFilterAction`: scan list `f` for an action of type `t`. */
    method HasFilterAction(f: Filter, t: string) returns (found: bool)
      ensures found <==> HasAction(ListOf(f), t)
    {
      var list := ListOf(f);
      for i := 0 to |list|
        invariant forall j | 0 <= j < i :: list[j].action != t
      {
        if list[i].action == t {
          return true;
        }
      }
      return false;
    }

    /** `getActions`: the player, contact and hireling lists, in that order. */
    function GetActions(): (r: seq<Action>)
      reads this
      ensures |r| == GetFilterCount(Player) + GetFilterCount(Contact) + GetFilterCount(Hireling)
      ensures forall a :: a in r <==> a in player || a in contact || a in hireling
      ensures Valid() ==>
                FiledUnder(r, Player) == player && FiledUnder(r, Contact) == contact
                && FiledUnder(r, Hireling) == hireling
    {
      ConcatFiledUnder(player, contact, hireling);
      player + contact + hireling
    }

    /** `getFilterCount`: how many actions list `f` holds. */
    function GetFilterCount(f: Filter): (n: nat)
      reads this
      ensures n == |ListOf(f)|
    {
      |ListOf(f)|
    }

    /** `addAction`: file the action under `f` and append it to that list. */
    method AddAction(f: Filter, a: Action)
      modifies this
      ensures ListOf(f) == old(ListOf(f)) + [a.(filter := Some(f))]
      ensures forall g | g != f :: ListOf(g) == old(ListOf(g))
      ensures current == old(current)
      ensures GetFilterCount(f) == old(GetFilterCount(f)) + 1
      ensures old(Valid()) ==> Valid()
    {
      var filed := a.(filter := Some(f));
      match f
      case Player => player := player + [filed];
      case Contact => contact := contact + [filed];
      case Hireling => hireling := hireling + [filed];
    }

    /** `removeActionNum`: `splice(num, 1)` on list `f`. */
    method RemoveActionNum(f: Filter, num: int)
      modifies this
      ensures ListOf(f) == SpliceOne(old(ListOf(f)), num)
      ensures forall g | g != f :: ListOf(g) == old(ListOf(g))
      ensures current == old(current)
      ensures old(Valid()) ==> Valid()
    {
      match f
      case Player => player := SpliceOne(player, num);
      case Contact => contact := SpliceOne(contact, num);
      case Hireling => hireling := SpliceOne(hireling, num);
    }
  }
}
