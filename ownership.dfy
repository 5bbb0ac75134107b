/**
 * The ownership-checked status toggle (app/supplier/actions.ts): the caller's
 * company is read from their profile, the listing is re-read from the machines
 * store with the privileged client, and the flipped status is written only when
 * the stored owner is the caller's company.
 */
module Ownership {
  import opened Wrappers
  import opened Identity

  /** The two statuses a listing is toggled between. */
  datatype ListingStatus = Published | Stopped

  function StatusText(s: ListingStatus): string {
    match s
    case Published => "PUBLISHED"
    case Stopped => "STOPPED"
  }

  /** The status a toggle writes, computed from the stored status text alone. */
  function NextStatus(stored: string): ListingStatus {
    if stored == "PUBLISHED" then Stopped else Published
  }

  /** `STOPPED` is written exactly when the stored status is `PUBLISHED`; any other text becomes `PUBLISHED`. */
  lemma NextStatusFlips(stored: string)
    ensures NextStatus(stored) == Stopped <==> stored == "PUBLISHED"
    ensures StatusText(NextStatus(stored)) != stored || (stored != "PUBLISHED" && stored != "STOPPED")
  {
  }

  /** Toggling twice restores a `PUBLISHED` or `STOPPED` status. */
  lemma ToggleTwiceRestores(s: ListingStatus)
    ensures NextStatus(StatusText(NextStatus(StatusText(s)))) == s
  {
  }

  /** A row of `machines` as the privileged client reads it. */
  datatype MachineRecord = MachineRecord(
    ownerCompanyId: Option<string>,
    status: string,
    mainImageUrl: Option<string>,
    imageUrls: Option<seq<string>>)

  datatype ToggleResult = Toggled(nextStatus: ListingStatus) | Refused(error: string)

  const NoSessionMessage: string := "ログイン情報を取得できませんでした。"
  const NoCompanyMessage: string := "ユーザーの所属企業が取得できませんでした。"
  const NoListingMessage: string := "対象の出品が見つかりませんでした。"
  const NotOwnerMessage: string := "この出品を更新する権限がありません。（自社の出品ではありません）"

  /**
   * The decision of `toggleMachineStatusAction`, in the order the source takes it:
   * session, caller's company, listing read, ownership, write. It succeeds exactly
   * for a member of the owning company when every read and the write go through,
   * and the status it reports is the flip of the stored one.
   */
  function ToggleDecision(
    auth: AuthLookup, users: Table<UserProfile>, rows: map<string, MachineRecord>,
    machineId: string, readFault: Option<string>, updateFault: Option<string>): (r: ToggleResult)
    ensures r.Toggled? <==>
      && auth.SignedIn? && Query(users, auth.user.id).Found?
      && Truthy(Query(users, auth.user.id).row.companyId)
      && readFault.None? && updateFault.None? && machineId in rows
      && rows[machineId].ownerCompanyId == Query(users, auth.user.id).row.companyId
    ensures r.Toggled? ==> r.nextStatus == NextStatus(rows[machineId].status)
  {
    match auth
    case AuthFailed(e) => Refused(e.message)
    case NoUser => Refused(NoSessionMessage)
    case SignedIn(u) =>
      match Query(users, u.id)
      case Failed(msg) => Refused(msg)
      case Missing => Refused(NoCompanyMessage)
      case Found(p) =>
        if !Truthy(p.companyId) then Refused(NoCompanyMessage)
        else if readFault.Some? then Refused(readFault.value)
        else if machineId !in rows then Refused(NoListingMessage)
        else if rows[machineId].ownerCompanyId != p.companyId then Refused(NotOwnerMessage)
        else if updateFault.Some? then Refused(updateFault.value)
        else Toggled(NextStatus(rows[machineId].status))
  }

  /** The machines store after a toggle: only the target row's status changes, and only on success. */
  function AfterToggle(rows: map<string, MachineRecord>, machineId: string, r: ToggleResult): map<string, MachineRecord> {
    if r.Toggled? && machineId in rows
    then rows[machineId := rows[machineId].(status := StatusText(r.nextStatus))]
    else rows
  }

  /** The `machines` table behind the privileged client. */
  class MachineStore {
    var rows: map<string, MachineRecord>

    constructor (initial: map<string, MachineRecord>)
      ensures rows == initial
    {
      rows := initial;
    }

    /**
     * `toggleMachineStatusAction`. The client-supplied `ownerCompanyId` and
     * `currentStatus` are accepted and ignored: the decision and the written
     * status depend only on the stores.
     */
    method ToggleMachineStatus(
      auth: AuthLookup, users: Table<UserProfile>,
      machineId: string, ownerCompanyId: string, currentStatus: string,
      readFault: Option<string>, updateFault: Option<string>) returns (r: ToggleResult)
      modifies this
      ensures r == ToggleDecision(auth, users, old(rows), machineId, readFault, updateFault)
      ensures rows == AfterToggle(old(rows), machineId, r)
    {
      if !auth.SignedIn? {
        r := if auth.AuthFailed? then Refused(auth.error.message) else Refused(NoSessionMessage);
        return;
      }
      var userId := auth.user.id;

      var profile := Query(users, userId);
      if profile.Failed? {
        r := Refused(profile.message);
        return;
      }
      if profile.Missing? || !Truthy(profile.row.companyId) {
        r := Refused(NoCompanyMessage);
        return;
      }
      var companyId := profile.row.companyId.value;

      if readFault.Some? {
        r := Refused(readFault.value);
        return;
      }
      if machineId !in rows {
        r := Refused(NoListingMessage);
        return;
      }
      var machine := rows[machineId];

      if machine.ownerCompanyId != Some(companyId) {
        r := Refused(NotOwnerMessage);
        return;
      }

      var nextStatus := NextStatus(machine.status);
      if updateFault.Some? {
        r := Refused(updateFault.value);
        return;
      }
      rows := rows[machineId := machine.(status := StatusText(nextStatus))];
      r := Toggled(nextStatus);
    }
  }

  // Properties of the toggle decision.

  /** Without a user, or on a provider error, the toggle is refused. */
  lemma NoSessionIsRefused(auth: AuthLookup, users: Table<UserProfile>, rows: map<string, MachineRecord>,
                           machineId: string, readFault: Option<string>, updateFault: Option<string>)
    requires !auth.SignedIn?
    ensures ToggleDecision(auth, users, rows, machineId, readFault, updateFault).Refused?
    ensures AfterToggle(rows, machineId, ToggleDecision(auth, users, rows, machineId, readFault, updateFault)) == rows
  {
  }

  /** A profile error, a missing profile or an empty `company_id` refuses the toggle. */
  lemma NoCompanyIsRefused(u: AuthUser, users: Table<UserProfile>, rows: map<string, MachineRecord>,
                           machineId: string, readFault: Option<string>, updateFault: Option<string>)
    requires !(Query(users, u.id).Found? && Truthy(Query(users, u.id).row.companyId))
    ensures ToggleDecision(SignedIn(u), users, rows, machineId, readFault, updateFault).Refused?
  {
  }

  /** A missing listing, or a failed read of it, refuses the toggle. */
  lemma MissingListingIsRefused(u: AuthUser, users: Table<UserProfile>, rows: map<string, MachineRecord>,
                                machineId: string, readFault: Option<string>, updateFault: Option<string>)
    requires readFault.Some? || machineId !in rows
    ensures ToggleDecision(SignedIn(u), users, rows, machineId, readFault, updateFault).Refused?
  {
  }

  /**
   * Cross-tenant denial: a listing owned by another company is refused with the
   * ownership message and the machines store is left as it was.
   */
  lemma CrossTenantIsDenied(u: AuthUser, p: UserProfile, users: Table<UserProfile>, rows: map<string, MachineRecord>,
                            machineId: string, updateFault: Option<string>)
    requires Query(users, u.id) == Found(p) && Truthy(p.companyId)
    requires machineId in rows && rows[machineId].ownerCompanyId != p.companyId
    ensures ToggleDecision(SignedIn(u), users, rows, machineId, None, updateFault) == Refused(NotOwnerMessage)
    ensures AfterToggle(rows, machineId, Refused(NotOwnerMessage)) == rows
  {
  }

  /** A successful toggle changes the target row's status and nothing else. */
  lemma ToggleChangesOnlyTargetStatus(rows: map<string, MachineRecord>, machineId: string, next: ListingStatus)
    requires machineId in rows
    ensures var after := AfterToggle(rows, machineId, Toggled(next));
      && after.Keys == rows.Keys
      && (forall id :: id in rows && id != machineId ==> after[id] == rows[id])
      && after[machineId] == rows[machineId].(status := StatusText(next))
  {
  }

  /** Two successful toggles of a `PUBLISHED` or `STOPPED` listing by its owner restore the store. */
  lemma {:induction false} DoubleToggleRestoresStore(
    auth: AuthLookup, users: Table<UserProfile>, rows: map<string, MachineRecord>, machineId: string, s: ListingStatus)
    requires machineId in rows && rows[machineId].status == StatusText(s)
    requires ToggleDecision(auth, users, rows, machineId, None, None).Toggled?
    ensures var once := AfterToggle(rows, machineId, ToggleDecision(auth, users, rows, machineId, None, None));
      var twice := AfterToggle(once, machineId, ToggleDecision(auth, users, once, machineId, None, None));
      twice == rows
  {
    var r1 := ToggleDecision(auth, users, rows, machineId, None, None);
    var once := AfterToggle(rows, machineId, r1);
    var r2 := ToggleDecision(auth, users, once, machineId, None, None);
    assert r1 == Toggled(NextStatus(StatusText(s)));
    assert once[machineId].ownerCompanyId == rows[machineId].ownerCompanyId;
    assert r2 == Toggled(NextStatus(StatusText(NextStatus(StatusText(s)))));
    ToggleTwiceRestores(s);
    var twice := AfterToggle(once, machineId, r2);
    assert twice[machineId] == rows[machineId];
    assert twice == rows;
  }
}
