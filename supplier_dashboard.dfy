/**
 * The supplier dashboard (app/supplier/page.tsx): the image slots of the edit
 * form (at most five), the image columns the save writes, and the status toggle,
 * delete and save handlers, which write the machines store through the browser
 * client.
 */
module SupplierDashboard {
  import opened Wrappers
  import opened Text
  import opened Sequences
  import opened Identity
  import opened Ownership
  import opened Storage

  const MaxImages: nat := 5

  const TooManyImagesMessage: string := "画像は最大5枚までアップロードできます。"
  const OnlyImagesMessage: string := "画像ファイルのみアップロードできます。"
  const ResumedMessage: string := "掲載を再開しました。"
  const StoppedMessage: string := "掲載を停止しました。"
  const DeletedMessage: string := "出品を削除しました。"
  const SavedMessage: string := "出品情報を更新しました。"

  const MachineImageTexts: UploadMessages := UploadMessages(
    "画像保存用の Storage バケット「machine-images」が見つかりません。Supabase の Storage で「machine-images」という公開バケットを作成してください。",
    "Storage の RLS 設定で画像のアップロードがブロックされています。「machine-images」バケットへの INSERT を許可するポリシーを追加してください。",
    "画像のアップロードに失敗しました。")

  /** A file the user picked: its name and its MIME type. */
  datatype ImageFile = ImageFile(name: string, mimeType: string)

  predicate IsImageFile(f: ImageFile) {
    IsImageType(f.mimeType)
  }

  predicate AllImages(fs: seq<ImageFile>) {
    forall k :: 0 <= k < |fs| ==> IsImageFile(fs[k])
  }

  /** The part of the edit form the model follows: the listing, its status and its image slots. */
  datatype EditState = EditState(
    id: string,
    status: string,
    existingImageUrls: seq<string>,
    newImages: seq<ImageFile>)

  function ImageCount(e: EditState): nat {
    |e.existingImageUrls| + |e.newImages|
  }

  /** `openEdit`'s image list: `image_urls` when non-empty, else the main image when set, else none. */
  function ExistingImageUrls(m: MachineRecord): seq<string> {
    if m.imageUrls.Some? && |m.imageUrls.value| > 0 then m.imageUrls.value
    else if Truthy(m.mainImageUrl) then [m.mainImageUrl.value]
    else []
  }

  /** `incoming.slice(0, remainingSlots)`. */
  function AllowedFiles(files: seq<ImageFile>, existingCount: nat): (allowed: seq<ImageFile>)
    requires existingCount < MaxImages
    ensures |allowed| <= MaxImages - existingCount && |allowed| <= |files|
    ensures allowed == files[..|allowed|]
    ensures |allowed| == |files| || |allowed| == MaxImages - existingCount
  {
    if |files| <= MaxImages - existingCount then files else files[..MaxImages - existingCount]
  }

  /**
   * The images one pick adds: the image files among the first `5 - existingCount`
   * picked, in their order. The slots never overflow, and no image file within
   * the allowance is dropped.
   */
  function AddedImages(files: seq<ImageFile>, existingCount: nat): (added: seq<ImageFile>)
    requires existingCount < MaxImages
    ensures existingCount + |added| <= MaxImages
    ensures AllImages(added)
    ensures IsSubsequence(added, AllowedFiles(files, existingCount))
    ensures forall k :: 0 <= k < |AllowedFiles(files, existingCount)| && IsImageFile(AllowedFiles(files, existingCount)[k]) ==>
                AllowedFiles(files, existingCount)[k] in added
  {
    FilterIsSubsequence(AllowedFiles(files, existingCount), IsImageFile);
    FilterMembers(AllowedFiles(files, existingCount), IsImageFile);
    Filter(AllowedFiles(files, existingCount), IsImageFile)
  }

  /** `[...existingImageUrls, ...newImageUrls].slice(0, 5)`. */
  function AllImageUrls(existing: seq<string>, added: seq<string>): (all: seq<string>)
    ensures |all| <= MaxImages && |all| <= |existing + added|
    ensures all == (existing + added)[..|all|]
    ensures |all| == |existing + added| || |all| == MaxImages
  {
    var joined := existing + added;
    if |joined| <= MaxImages then joined else joined[..MaxImages]
  }

  /** `allImageUrls[0] || null`. */
  function MainImageUrl(all: seq<string>): (main: Option<string>)
    ensures main.Some? <==> |all| > 0 && all[0] != ""
    ensures main.Some? ==> main.value == all[0]
  {
    if |all| > 0 && all[0] != "" then Some(all[0]) else None
  }

  /** `allImageUrls.length > 0 ? allImageUrls : null`. */
  function StoredImageUrls(all: seq<string>): (urls: Option<seq<string>>)
    ensures urls.None? <==> all == []
    ensures urls.Some? ==> urls.value == all
  {
    if |all| > 0 then Some(all) else None
  }

  /** The update of the edit save: the row with the form's id, with no ownership filter. */
  function SaveImages(rows: map<string, MachineRecord>, id: string, all: seq<string>, status: string): map<string, MachineRecord> {
    if id in rows
    then rows[id := rows[id].(status := status, mainImageUrl := MainImageUrl(all), imageUrls := StoredImageUrls(all))]
    else rows
  }

  /** `.update({ status }).eq('id', id).eq('owner_company_id', companyId)`. */
  function UpdateOwnedStatus(rows: map<string, MachineRecord>, id: string, companyId: string, next: ListingStatus): map<string, MachineRecord> {
    if id in rows && rows[id].ownerCompanyId == Some(companyId)
    then rows[id := rows[id].(status := StatusText(next))]
    else rows
  }

  /** `me?.company?.id`, when non-empty. */
  function CompanyIdOf(me: Option<Me>): Option<string> {
    if me.Some? && me.value.company.Some? && me.value.company.value.id != "" then Some(me.value.company.value.id) else None
  }

  /** The outcome of uploading the new images of a save: their public URLs, or the error's message. */
  datatype UploadOutcome = Uploaded(urls: seq<string>) | UploadFailed(message: Option<string>)

  /** `[m.location_prefecture, m.location_city].filter(Boolean).join(' ')`. */
  function LocationText(prefecture: Option<string>, city: Option<string>): (t: string)
    ensures t == "" <==> !Truthy(prefecture) && !Truthy(city)
    ensures Truthy(prefecture) ==> StartsWith(t, prefecture.value)
    ensures Truthy(city) ==> |city.value| <= |t| && t[|t| - |city.value|..] == city.value
    ensures Truthy(prefecture) && Truthy(city) ==> |t| == |prefecture.value| + 1 + |city.value| && t[|prefecture.value|] == ' '
    ensures Truthy(prefecture) != Truthy(city) ==> t == (if Truthy(prefecture) then prefecture.value else city.value)
  {
    if Truthy(prefecture) && Truthy(city) then prefecture.value + " " + city.value
    else if Truthy(prefecture) then prefecture.value
    else if Truthy(city) then city.value
    else ""
  }

  /** `parts.filter(Boolean)`, unwrapped. */
  function TruthyParts(parts: seq<Option<string>>): seq<string> {
    if parts == [] then []
    else if Truthy(parts[0]) then [parts[0].value] + TruthyParts(parts[1..])
    else TruthyParts(parts[1..])
  }

  /** `Array.prototype.join`. */
  function Join(parts: seq<string>, sep: string): string {
    if parts == [] then ""
    else if |parts| == 1 then parts[0]
    else parts[0] + sep + Join(parts[1..], sep)
  }

  /** The location text is the general filter-and-join over the two parts. */
  lemma LocationTextIsJoin(prefecture: Option<string>, city: Option<string>)
    ensures LocationText(prefecture, city) == Join(TruthyParts([prefecture, city]), " ")
  {
    assert [prefecture, city][1..] == [city];
    assert [city][1..] == [];
    assert TruthyParts([city][1..]) == [];
    var tail := TruthyParts([city]);
    assert tail == (if Truthy(city) then [city.value] else []);
    assert TruthyParts([prefecture, city]) == (if Truthy(prefecture) then [prefecture.value] + tail else tail);
    if Truthy(prefecture) && Truthy(city) {
      assert Join([prefecture.value, city.value], " ") == prefecture.value + " " + Join([city.value], " ");
    }
  }

  /**
   * The loop of `handleChangeEditImages`: keeps the image files in their order,
   * and reports whether some file was refused.
   */
  method SelectImages(files: seq<ImageFile>) returns (valid: seq<ImageFile>, rejected: bool)
    ensures valid == Filter(files, IsImageFile)
    ensures rejected <==> !AllImages(files)
  {
    valid := [];
    rejected := false;
    var i := 0;
    while i < |files|
      invariant 0 <= i <= |files|
      invariant valid == Filter(files[..i], IsImageFile)
      invariant rejected <==> !AllImages(files[..i])
    {
      var f := files[i];
      SelectStep(files, i);
      if !IsImageFile(f) {
        rejected := true;
        i := i + 1;
        continue;
      }
      assert Filter(files[..i + 1], IsImageFile) == valid + [f];
      valid := valid + [f];
      i := i + 1;
    }
    assert files[..|files|] == files;
  }

  /** One step of the loop of `SelectImages`. */
  lemma SelectStep(files: seq<ImageFile>, i: int)
    requires 0 <= i < |files|
    ensures Filter(files[..i + 1], IsImageFile)
         == Filter(files[..i], IsImageFile) + (if IsImageFile(files[i]) then [files[i]] else [])
    ensures AllImages(files[..i + 1]) <==> AllImages(files[..i]) && IsImageFile(files[i])
  {
    assert files[..i + 1] == files[..i] + [files[i]];
    FilterAppend(files[..i], [files[i]], IsImageFile);
    FilterSingle(files[i]);
    AllImagesSnoc(files[..i], files[i]);
  }

  lemma FilterSingle(f: ImageFile)
    ensures Filter([f], IsImageFile) == if IsImageFile(f) then [f] else []
  {
    assert [f][1..] == [];
  }

  lemma AllImagesSnoc(fs: seq<ImageFile>, f: ImageFile)
    ensures AllImages(fs + [f]) <==> AllImages(fs) && IsImageFile(f)
  {
    if AllImages(fs) && IsImageFile(f) {
      forall k | 0 <= k < |fs + [f]|
        ensures IsImageFile((fs + [f])[k])
      {
        if k < |fs| {
          assert (fs + [f])[k] == fs[k];
        }
      }
    }
    if AllImages(fs + [f]) {
      assert (fs + [f])[|fs|] == f;
      forall k | 0 <= k < |fs|
        ensures IsImageFile(fs[k])
      {
        assert (fs + [f])[k] == fs[k];
      }
    }
  }

  /** The dashboard's state, and the machines store its handlers write. */
  class Dashboard {
    const store: MachineStore
    var edit: Option<EditState>
    var error: Option<string>
    var message: Option<string>
    var savingEdit: bool

    constructor (store: MachineStore)
      ensures this.store == store
      ensures edit == None && error == None && message == None && !savingEdit
    {
      this.store := store;
      edit := None;
      error := None;
      message := None;
      savingEdit := false;
    }

    /** `openEdit`: the form starts from the listing's images, with no new ones, and clears the banners. */
    method OpenEdit(id: string, m: MachineRecord)
      modifies this`edit, this`error, this`message
      ensures edit == Some(EditState(id, m.status, ExistingImageUrls(m), []))
      ensures error == None && message == None
    {
      edit := Some(EditState(id, m.status, ExistingImageUrls(m), []));
      message := None;
      error := None;
    }

    /** `handleClickImageUpload`: opening the file picker clears the error. */
    method ClickImageUpload()
      modifies this`error
      ensures error == None
    {
      error := None;
    }

    /** `handleChangeEditImages`: add the image files that fit, reporting the first refusal. */
    method ChangeEditImages(files: Option<seq<ImageFile>>)
      modifies this`edit, this`error
      ensures old(edit).None? || files.None? ==> edit == old(edit) && error == old(error)
      ensures old(edit).Some? && files.Some? && ImageCount(old(edit).value) >= MaxImages ==>
        edit == old(edit) && error == Some(TooManyImagesMessage)
      ensures old(edit).Some? && files.Some? && ImageCount(old(edit).value) < MaxImages ==>
        var e := old(edit).value;
        && edit == Some(e.(newImages := e.newImages + AddedImages(files.value, ImageCount(e))))
        && error == (if AllImages(AllowedFiles(files.value, ImageCount(e))) then old(error) else Some(OnlyImagesMessage))
    {
      if files.None? || edit.None? {
        return;
      }
      var e := edit.value;
      var existingCount := |e.existingImageUrls| + |e.newImages|;
      var incoming := files.value;
      if existingCount >= MaxImages {
        error := Some(TooManyImagesMessage);
        return;
      }
      var remainingSlots := MaxImages - existingCount;
      var allowedFiles := if |incoming| <= remainingSlots then incoming else incoming[..remainingSlots];

      var validFiles, rejected := SelectImages(allowedFiles);
      if rejected {
        error := Some(OnlyImagesMessage);
      }
      edit := Some(e.(newImages := e.newImages + validFiles));
    }

    /** `handleRemoveExistingImage`. */
    method RemoveExistingImage(index: int)
      modifies this`edit
      ensures old(edit).None? ==> edit == None
      ensures old(edit).Some? ==>
        edit == Some(old(edit).value.(existingImageUrls := RemoveAt(old(edit).value.existingImageUrls, index)))
    {
      if edit.None? {
        return;
      }
      edit := Some(edit.value.(existingImageUrls := RemoveAt(edit.value.existingImageUrls, index)));
    }

    /** `handleRemoveNewImage`. */
    method RemoveNewImage(index: int)
      modifies this`edit
      ensures old(edit).None? ==> edit == None
      ensures old(edit).Some? ==>
        edit == Some(old(edit).value.(newImages := RemoveAt(old(edit).value.newImages, index)))
    {
      if edit.None? {
        return;
      }
      edit := Some(edit.value.(newImages := RemoveAt(edit.value.newImages, index)));
    }

    /**
     * `handleToggleStatus`: the next status comes from the dashboard's copy of the
     * listing, and the update is restricted to the id and the caller's company. A
     * successful call reloads the list, which clears the error or reports the
     * reload's own failure.
     */
    method ToggleStatus(me: Option<Me>, id: string, shown: MachineRecord,
                        updateFault: Option<string>, reloadFault: Option<string>)
      modifies this`error, this`message, store
      ensures CompanyIdOf(me).None? ==>
        store.rows == old(store.rows) && error == old(error) && message == old(message)
      ensures CompanyIdOf(me).Some? && updateFault.Some? ==>
        store.rows == old(store.rows) && error == updateFault && message == old(message)
      ensures CompanyIdOf(me).Some? && updateFault.None? ==>
        && store.rows == UpdateOwnedStatus(old(store.rows), id, CompanyIdOf(me).value, NextStatus(shown.status))
        && error == reloadFault
        && message == Some(if NextStatus(shown.status) == Published then ResumedMessage else StoppedMessage)
    {
      var companyId := CompanyIdOf(me);
      if companyId.None? {
        return;
      }
      var nextStatus := if shown.status == "PUBLISHED" then Stopped else Published;
      if updateFault.Some? {
        error := updateFault;
        return;
      }
      store.rows := UpdateOwnedStatus(store.rows, id, companyId.value, nextStatus);
      error := reloadFault;
      message := Some(if nextStatus == Published then ResumedMessage else StoppedMessage);
    }

    /**
     * `handleDelete`: after confirmation, the row with that id is deleted and
     * every other row is kept. There is no ownership filter: nothing here asks
     * whose company the deleted row belongs to.
     */
    method Delete(me: Option<Me>, id: string, confirmed: bool,
                  deleteFault: Option<string>, reloadFault: Option<string>)
      modifies this`error, this`message, store
      ensures CompanyIdOf(me).None? || !confirmed ==>
        store.rows == old(store.rows) && error == old(error) && message == old(message)
      ensures CompanyIdOf(me).Some? && confirmed && deleteFault.Some? ==>
        store.rows == old(store.rows) && error == deleteFault && message == old(message)
      ensures CompanyIdOf(me).Some? && confirmed && deleteFault.None? ==>
        store.rows == old(store.rows) - {id} && error == reloadFault && message == Some(DeletedMessage)
      ensures CompanyIdOf(me).Some? && confirmed && deleteFault.None? ==>
        && id !in store.rows
        && forall k :: k in old(store.rows) && k != id ==> k in store.rows && store.rows[k] == old(store.rows)[k]
    {
      if CompanyIdOf(me).None? {
        return;
      }
      if !confirmed {
        return;
      }
      if deleteFault.Some? {
        error := deleteFault;
        return;
      }
      store.rows := store.rows - {id};
      error := reloadFault;
      message := Some(DeletedMessage);
    }

    /**
     * `handleSaveEdit`, restricted to the images and the status: upload the new
     * images (when there are any), keep the first five of existing and new, and
     * update the row with the form's id.
     */
    method SaveEdit(me: Option<Me>, upload: UploadOutcome, updateFault: Option<string>, reloadFault: Option<string>)
      modifies this`edit, this`error, this`message, this`savingEdit, store
      ensures old(edit).None? || !(me.Some? && me.value.company.Some?) ==>
        && store.rows == old(store.rows) && edit == old(edit)
        && error == old(error) && message == old(message) && savingEdit == old(savingEdit)
      ensures old(edit).Some? && me.Some? && me.value.company.Some? ==>
        var e := old(edit).value;
        && !savingEdit
        && (|e.newImages| > 0 && upload.UploadFailed? ==>
              && store.rows == old(store.rows) && edit == old(edit) && message == None
              && error == Some(UploadErrorText(upload.message, MachineImageTexts)))
        && (!(|e.newImages| > 0 && upload.UploadFailed?) ==>
              var all := AllImageUrls(e.existingImageUrls, if |e.newImages| > 0 then upload.urls else []);
              if updateFault.Some? then
                store.rows == old(store.rows) && edit == old(edit) && message == None && error == updateFault
              else
                && store.rows == SaveImages(old(store.rows), e.id, all, e.status)
                && edit == None && message == Some(SavedMessage) && error == reloadFault)
    {
      if edit.None? || !(me.Some? && me.value.company.Some?) {
        return;
      }
      var e := edit.value;
      savingEdit := true;
      error := None;
      message := None;

      var newImageUrls: seq<string> := [];
      if |e.newImages| > 0 {
        if upload.UploadFailed? {
          error := Some(UploadErrorText(upload.message, MachineImageTexts));
          savingEdit := false;
          return;
        }
        newImageUrls := upload.urls;
      }

      var allImageUrls := AllImageUrls(e.existingImageUrls, newImageUrls);
      if updateFault.Some? {
        error := updateFault;
      } else {
        store.rows := SaveImages(store.rows, e.id, allImageUrls, e.status);
        error := reloadFault;
        message := Some(SavedMessage);
        edit := None;
      }
      savingEdit := false;
    }
  }

  // Properties of the image slots and of the writes.

  /**
   * The slot cap: a pick never takes the form past five images, and a form that
   * already holds five or more is left as it is.
   */
  lemma SlotsNeverOverflow(e: EditState, files: seq<ImageFile>)
    ensures ImageCount(e) < MaxImages ==>
      ImageCount(e.(newImages := e.newImages + AddedImages(files, ImageCount(e)))) <= MaxImages
  {
  }

  /** The added images come from the picked files, in the order they were picked. */
  lemma {:induction false} AddedImagesKeepPickOrder(files: seq<ImageFile>, existingCount: nat)
    requires existingCount < MaxImages
    ensures IsSubsequence(AddedImages(files, existingCount), files)
  {
    var allowed := AllowedFiles(files, existingCount);
    PrefixIsSubsequence(allowed, files[|allowed|..]);
    assert allowed + files[|allowed|..] == files;
    SubsequenceTransitive(AddedImages(files, existingCount), allowed, files);
  }

  lemma {:induction false} PrefixIsSubsequence<T>(xs: seq<T>, ys: seq<T>)
    ensures IsSubsequence(xs, xs + ys)
    decreases |xs| + |ys|
  {
    if xs == [] {
      assert xs + ys == ys;
      EmptyIsSubsequence(ys);
    } else {
      assert (xs + ys)[1..] == xs[1..] + ys;
      PrefixIsSubsequence(xs[1..], ys);
    }
  }

  lemma {:induction false} EmptyIsSubsequence<T>(ys: seq<T>)
    ensures IsSubsequence([], ys)
    decreases |ys|
  {
    if ys != [] {
      EmptyIsSubsequence(ys[1..]);
    }
  }

  lemma {:induction false} SubsequenceTransitive<T>(a: seq<T>, b: seq<T>, c: seq<T>)
    requires IsSubsequence(a, b) && IsSubsequence(b, c)
    ensures IsSubsequence(a, c)
    decreases |c|
  {
    if c != [] {
      if b != [] && b[0] == c[0] && IsSubsequence(b[1..], c[1..]) {
        if a != [] && a[0] == b[0] && IsSubsequence(a[1..], b[1..]) {
          SubsequenceTransitive(a[1..], b[1..], c[1..]);
        } else {
          SubsequenceTransitive(a, b[1..], c[1..]);
        }
      } else {
        SubsequenceTransitive(a, b, c[1..]);
      }
    }
  }

  /**
   * Reopening a listing that a save wrote, and saving it without changes, writes
   * the same image columns: the edit form shows exactly the saved images.
   */
  lemma {:induction false} ReopenShowsSavedImages(owner: Option<string>, status: string, all: seq<string>)
    requires |all| <= MaxImages
    ensures ExistingImageUrls(MachineRecord(owner, status, MainImageUrl(all), StoredImageUrls(all))) == all
    ensures AllImageUrls(all, []) == all
  {
    assert all + [] == all;
  }

  /** A save writes the head of the images as the main image, unless it is empty, and null columns for no images. */
  lemma SavedColumnsAgree(rows: map<string, MachineRecord>, id: string, all: seq<string>, status: string)
    requires id in rows
    ensures var row := SaveImages(rows, id, all, status)[id];
      && (row.imageUrls.None? <==> all == [])
      && (row.mainImageUrl.Some? ==> row.imageUrls.Some? && row.mainImageUrl.value == row.imageUrls.value[0])
      && row.ownerCompanyId == rows[id].ownerCompanyId
  {
  }

  /**
   * The dashboard's toggle and the server action agree whenever the dashboard's
   * copy of the status is current: both flip the row for its owner and leave the
   * store alone for anyone else.
   */
  lemma {:induction false} ClientToggleAgreesWithServer(
    u: AuthUser, p: UserProfile, users: Table<UserProfile>, rows: map<string, MachineRecord>, id: string)
    requires Query(users, u.id) == Found(p) && Truthy(p.companyId)
    requires id in rows
    ensures UpdateOwnedStatus(rows, id, p.companyId.value, NextStatus(rows[id].status))
         == AfterToggle(rows, id, ToggleDecision(SignedIn(u), users, rows, id, None, None))
  {
    var d := ToggleDecision(SignedIn(u), users, rows, id, None, None);
    if rows[id].ownerCompanyId == p.companyId {
      assert d == Toggled(NextStatus(rows[id].status));
    } else {
      assert d.Refused?;
    }
  }
}
