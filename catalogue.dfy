/**
 * The catalogue screen (App.tsx over the types of types.ts): the search and
 * deal-type tab filter over the machine list, the mock user's login switch, and
 * the specification cells and post button that depend on it.
 */
module Catalogue {
  import opened Wrappers
  import opened Text
  import opened Sequences

  datatype MachineCategory = HeavyMachinery | Dump | Attachment
  datatype DealType = Rental | Sale | RentToBuy
  datatype TradeType = Demolition | Waste | Construction

  /** `condition: 1 | 2 | 3 | 4 | 5`. */
  type Grade = c: int | 1 <= c <= 5 witness 1

  /** A catalogue machine, with the fields the screen filters on and the specification cells show. */
  datatype Machine = Machine(
    id: string,
    category: MachineCategory,
    name: string,
    manufacturer: string,
    size: string,
    dealTypes: seq<DealType>,
    yearOfManufacture: Option<nat>,
    operatingHours: Option<nat>,
    condition: Grade)

  /** The mock user; only `isLoggedIn` ever changes. */
  datatype User = User(
    id: string,
    companyName: string,
    companyType: TradeType,
    region: string,
    experienceYears: nat,
    isLoggedIn: bool,
    avatar: Option<string>)

  /** `'all' | 'rent' | 'sale' | 'rtob'`. */
  datatype Tab = AllTab | RentTab | SaleTab | RentToBuyTab

  /** The deal type a tab requires, if any. */
  function TabDeal(tab: Tab): Option<DealType> {
    match tab
    case AllTab => None
    case RentTab => Some(Rental)
    case SaleTab => Some(Sale)
    case RentToBuyTab => Some(RentToBuy)
  }

  /** `matchesSearch`: the query, lower-cased, occurs in the lower-cased name or manufacturer. */
  predicate MatchesSearch(m: Machine, query: string) {
    ContainsIgnoreCase(m.name, query) || ContainsIgnoreCase(m.manufacturer, query)
  }

  /** The callback of `machines.filter`. */
  predicate Shown(query: string, tab: Tab, m: Machine) {
    MatchesSearch(m, query) && (TabDeal(tab).Some? ==> TabDeal(tab).value in m.dealTypes)
  }

  /**
   * `filteredMachines`: exactly the machines that match the search and carry the
   * tab's deal type, each as often as the catalogue lists it, in catalogue order.
   */
  function FilteredMachines(machines: seq<Machine>, query: string, tab: Tab): (shown: seq<Machine>)
    ensures forall i :: 0 <= i < |shown| ==> shown[i] in machines && Shown(query, tab, shown[i])
    ensures forall i :: 0 <= i < |machines| && Shown(query, tab, machines[i]) ==> machines[i] in shown
    ensures IsSubsequence(shown, machines)
    ensures forall m :: multiset(shown)[m] == (if Shown(query, tab, m) then multiset(machines)[m] else 0)
  {
    FilterMultiplicity(machines, m => Shown(query, tab, m));
    FilterIsSubsequence(machines, m => Shown(query, tab, m));
    FilterMembers(machines, m => Shown(query, tab, m));
    Filter(machines, m => Shown(query, tab, m))
  }

  /** The empty query occurs in every string. */
  lemma EmptyQueryMatches(m: Machine)
    ensures MatchesSearch(m, [])
  {
    assert Lower([]) == [];
  }

  /** With an empty query on the `all` tab, the whole catalogue is shown. */
  lemma EverythingShownByDefault(machines: seq<Machine>)
    ensures FilteredMachines(machines, [], AllTab) == machines
  {
    forall i | 0 <= i < |machines|
      ensures Shown([], AllTab, machines[i])
    {
      EmptyQueryMatches(machines[i]);
    }
    FilterKeepsAll(machines, m => Shown([], AllTab, m));
  }

  /**
   * A deal tab shows a machine exactly when the `all` tab does and the machine
   * offers that deal.
   */
  lemma TabNarrowsAllTab(machines: seq<Machine>, query: string, tab: Tab, m: Machine)
    requires TabDeal(tab).Some? && m in machines
    ensures m in FilteredMachines(machines, query, tab)
        <==> m in FilteredMachines(machines, query, AllTab) && TabDeal(tab).value in m.dealTypes
  {
    var k :| 0 <= k < |machines| && machines[k] == m;
    if m in FilteredMachines(machines, query, tab) {
      assert Shown(query, AllTab, machines[k]);
    }
  }

  /** A query typed in any letter case finds a machine whose manufacturer contains it. */
  lemma FindsManufacturerAnyCase(machines: seq<Machine>, k: int, pre: string, q: string, post: string, typed: string)
    requires 0 <= k < |machines| && machines[k].manufacturer == pre + q + post
    requires Lower(typed) == Lower(q)
    ensures machines[k] in FilteredMachines(machines, typed, AllTab)
  {
    ContainsIgnoreCaseInfix(pre, q, post, typed);
  }

  /** A query typed in full-width capitals finds a manufacturer stored in full-width small letters. */
  lemma FullWidthQueryFindsManufacturer(machines: seq<Machine>, k: int)
    requires 0 <= k < |machines| && machines[k].manufacturer == "ｋｏｍａｔｓｕ"
    ensures machines[k] in FilteredMachines(machines, "ＫＯＭＡＴＳＵ", AllTab)
  {
    assert Lower("ＫＯＭＡＴＳＵ") == Lower("ｋｏｍａｔｓｕ");
    assert machines[k].manufacturer == "" + "ｋｏｍａｔｓｕ" + "";
    FindsManufacturerAnyCase(machines, k, "", "ｋｏｍａｔｓｕ", "", "ＫＯＭＡＴＳＵ");
  }

  // The specification cells.

  const LockedText: string := "ログイン後"

  /** `${n}`, where an absent optional field prints as `undefined`. */
  function NumberText(n: Option<nat>): string {
    if n.Some? then Decimal(n.value) else "undefined"
  }

  datatype SpecCell = SpecCell(heading: string, value: string)

  /** The specification grid: size, year, hours and condition, the last three only when logged in. */
  function SpecGrid(m: Machine, loggedIn: bool): (cells: seq<SpecCell>)
    ensures |cells| == 4
    ensures cells[0].value == m.size
    ensures !loggedIn ==> forall i :: 1 <= i < 4 ==> cells[i].value == LockedText
    ensures loggedIn ==> cells[1].value == NumberText(m.yearOfManufacture) + "年"
    ensures loggedIn ==> cells[2].value == NumberText(m.operatingHours) + "h"
    ensures loggedIn ==> cells[3].value == Decimal(m.condition as nat) + "/5"
  {
    [ SpecCell("サイズ", m.size),
      SpecCell("年式", if loggedIn then NumberText(m.yearOfManufacture) + "年" else LockedText),
      SpecCell("稼働時間", if loggedIn then NumberText(m.operatingHours) + "h" else LockedText),
      SpecCell("状態", if loggedIn then Decimal(m.condition as nat) + "/5" else LockedText) ]
  }

  /** Logged out, the grid reveals nothing about a machine but its size. */
  lemma LockedGridRevealsOnlySize(m1: Machine, m2: Machine)
    requires m1.size == m2.size
    ensures SpecGrid(m1, false) == SpecGrid(m2, false)
  {
  }

  /** Logged in, machines that differ in their year show different year cells. */
  lemma {:induction false} OpenGridShowsYear(m1: Machine, m2: Machine)
    requires m1.yearOfManufacture.Some? && m2.yearOfManufacture.Some?
    requires m1.yearOfManufacture != m2.yearOfManufacture
    ensures SpecGrid(m1, true)[1] != SpecGrid(m2, true)[1]
  {
    DecimalInjective(m1.yearOfManufacture.value, m2.yearOfManufacture.value);
    var a := Decimal(m1.yearOfManufacture.value);
    var b := Decimal(m2.yearOfManufacture.value);
    if |a| == |b| {
      assert (a + "年")[..|a|] == a && (b + "年")[..|b|] == b;
    } else {
      assert |a + "年"| != |b + "年"|;
    }
  }

  lemma {:induction false} DecimalInjective(a: nat, b: nat)
    requires a != b
    ensures Decimal(a) != Decimal(b)
    decreases a + b
  {
    if a >= 10 && b >= 10 {
      var da := Decimal(a);
      var db := Decimal(b);
      assert da == Decimal(a / 10) + [DigitChar(a % 10)];
      assert db == Decimal(b / 10) + [DigitChar(b % 10)];
      if a / 10 != b / 10 {
        DecimalInjective(a / 10, b / 10);
        if |da| == |db| {
          assert da[..|da| - 1] == Decimal(a / 10);
          assert db[..|db| - 1] == Decimal(b / 10);
        }
      } else {
        assert da[|da| - 1] != db[|db| - 1];
      }
    }
  }

  /** The catalogue screen's state. */
  class CataloguePage {
    var currentUser: User
    var isPosting: bool

    constructor (user: User)
      ensures currentUser == user && !isPosting
    {
      currentUser := user;
      isPosting := false;
    }

    /** `handleLogin`: only the login flag changes. */
    method Login()
      modifies this`currentUser
      ensures currentUser == old(currentUser).(isLoggedIn := true)
    {
      currentUser := currentUser.(isLoggedIn := true);
    }

    /** `handleLogout`: only the login flag changes. */
    method Logout()
      modifies this`currentUser
      ensures currentUser == old(currentUser).(isLoggedIn := false)
    {
      currentUser := currentUser.(isLoggedIn := false);
    }

    /** The post button: opens the form when logged in, and logs in otherwise. */
    method PostButton()
      modifies this`currentUser, this`isPosting
      ensures old(currentUser.isLoggedIn) ==> isPosting && currentUser == old(currentUser)
      ensures !old(currentUser.isLoggedIn) ==> isPosting == old(isPosting) && currentUser == old(currentUser).(isLoggedIn := true)
    {
      if currentUser.isLoggedIn {
        isPosting := true;
      } else {
        Login();
      }
    }
  }
}
