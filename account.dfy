/**
 * The account page (app/me/page.tsx): the avatar shown, the rules that build the
 * profile save, the storage path recovered from an avatar URL, and the save,
 * avatar delete and avatar upload handlers over the profile table, the
 * provider's user and the `avatars` bucket.
 */
module Account {
  import opened Wrappers
  import opened Text
  import opened Identity
  import opened Storage

  const FallbackAvatar: string := "https://api.dicebear.com/7.x/big-smile/svg?seed=k-market-user"
  /** The mock user's avatar (constants.tsx), always defined. */
  const MockAvatar: string := "https://picsum.photos/seed/user1/100/100"

  const NoLoginMessage: string := "ログイン情報が取得できませんでした。"
  const EmptyUserNameMessage: string := "USER（担当者名）を入力してください。"
  const ProfileSavedMessage: string := "プロフィールを保存しました。"
  const ProfileSaveFailedMessage: string := "プロフィールの保存に失敗しました。"
  const RemoveFailedMessage: string := "画像ファイルの削除に失敗しましたが、プロフィール画像の設定は解除されました。"
  const DeleteFailedMessage: string := "画像の削除に失敗しました。"
  const NotAnImageMessage: string := "画像ファイルを選択してください。"
  const TooLargeMessage: string := "5MB以下の画像を選択してください。"

  const AvatarTexts: UploadMessages := UploadMessages(
    "アイコン保存用の Storage バケット「avatars」が見つかりません。Supabase の Storage で「avatars」という名前の公開バケットを作成してください。",
    "Storage の RLS 設定でアップロードがブロックされています。Supabase の「storage.objects」テーブルに、バケット avatars への INSERT を許可するポリシーを追加してください。",
    "画像のアップロードに失敗しました。")

  /** `5 * 1024 * 1024` bytes. */
  const MaxAvatarSize: nat := 5 * 1024 * 1024

  /** `fromMe || fromMock || fallbackAvatar`: the first truthy candidate. */
  function ChooseAvatar(fromMe: Option<string>, fromMock: Option<string>): (url: string)
    ensures url != []
    ensures Truthy(fromMe) ==> url == fromMe.value
    ensures !Truthy(fromMe) && Truthy(fromMock) ==> url == fromMock.value
    ensures !Truthy(fromMe) && !Truthy(fromMock) ==> url == FallbackAvatar
  {
    if Truthy(fromMe) then fromMe.value
    else if Truthy(fromMock) then fromMock.value
    else FallbackAvatar
  }

  /**
   * The mock avatar is always defined, so the page shows the user's own avatar
   * when there is one and the mock avatar otherwise: the fallback URL is never chosen.
   */
  lemma FallbackIsUnreachable(fromMe: Option<string>)
    ensures ChooseAvatar(fromMe, Some(MockAvatar)) == (if Truthy(fromMe) then fromMe.value else MockAvatar)
    ensures !Truthy(fromMe) ==> ChooseAvatar(fromMe, Some(MockAvatar)) != FallbackAvatar
  {
    assert |MockAvatar| != |FallbackAvatar|;
  }

  // The profile save.

  /** What `handleSaveProfile` asks the identity provider to change. */
  datatype AuthUpdate =
    | ProfileUpdate(email: Option<string>, displayName: Option<string>)
    | AvatarUpdate(avatarUrl: Option<string>)

  /**
   * `authUpdate`: the e-mail only when the trimmed form value is non-empty and
   * differs from the current one (`me.email ?? ''`), and the trimmed display
   * name, or null when that is empty.
   */
  function ProfileAuthUpdate(email: string, displayName: string, currentEmail: Option<string>): (u: AuthUpdate)
    ensures u.ProfileUpdate?
    ensures u.email.Some? <==> !IsBlank(email) && Trim(email) != currentEmail.GetOr([])
    ensures u.email.Some? ==> u.email.value == Trim(email) && u.email.value != []
    ensures u.displayName.None? <==> IsBlank(displayName)
    ensures u.displayName.Some? ==> u.displayName.value == Trim(displayName)
  {
    var trimmedEmail := Trim(email);
    var trimmedDisplayName := Trim(displayName);
    ProfileUpdate(
      if trimmedEmail != [] && trimmedEmail != currentEmail.GetOr([]) then Some(trimmedEmail) else None,
      if trimmedDisplayName != [] then Some(trimmedDisplayName) else None)
  }

  /** Saving the e-mail already on file sends no e-mail change, however it is padded. */
  lemma UnchangedEmailIsNotSent(current: string, pad1: string, pad2: string, displayName: string)
    requires IsBlank(pad1) && IsBlank(pad2)
    requires Trim(current) == current
    ensures ProfileAuthUpdate(pad1 + current + pad2, displayName, Some(current)).email.None?
  {
    assert current == [] || (!IsJsSpace(current[0]) && !IsJsSpace(current[|current| - 1])) by {
      TrimEnds(current);
    }
    TrimPadded(pad1, current, pad2);
  }

  lemma TrimEnds(s: string)
    requires Trim(s) == s
    ensures s == [] || (!IsJsSpace(s[0]) && !IsJsSpace(s[|s| - 1]))
  {
    if s != [] {
      var r := Trim(s);
      assert r != [] ==> !IsJsSpace(r[0]) && !IsJsSpace(r[|r| - 1]);
    }
  }

  /** Padding a trimmed string with white space on both sides trims back to it. */
  lemma {:induction false} TrimPadded(pad1: string, s: string, pad2: string)
    requires IsBlank(pad1) && IsBlank(pad2)
    requires s == [] || (!IsJsSpace(s[0]) && !IsJsSpace(s[|s| - 1]))
    ensures Trim(pad1 + s + pad2) == s
  {
    var x := pad1 + s + pad2;
    if s == [] {
      assert x == pad1 + pad2;
      BlankAppend(pad1, pad2);
    } else {
      assert x == pad1 + (s + pad2);
      TrimStartPadded(pad1, s + pad2);
      TrimEndPadded(s, pad2);
      assert Trim(x) == TrimEnd(TrimStart(x));
    }
  }

  lemma BlankAppend(a: string, b: string)
    requires IsBlank(a) && IsBlank(b)
    ensures IsBlank(a + b)
  {
    forall k | 0 <= k < |a + b|
      ensures IsJsSpace((a + b)[k])
    {
      if k < |a| {
        assert (a + b)[k] == a[k];
      } else {
        assert (a + b)[k] == b[k - |a|];
      }
    }
  }

  lemma {:induction false} TrimStartPadded(pad: string, s: string)
    requires IsBlank(pad)
    requires s != [] && !IsJsSpace(s[0])
    ensures TrimStart(pad + s) == s
    decreases |pad|
  {
    if pad != [] {
      assert (pad + s)[1..] == pad[1..] + s;
      assert IsBlank(pad[1..]) by {
        forall k | 0 <= k < |pad[1..]|
          ensures IsJsSpace(pad[1..][k])
        {
          assert pad[1..][k] == pad[k + 1];
        }
      }
      TrimStartPadded(pad[1..], s);
    } else {
      assert pad + s == s;
    }
  }

  lemma {:induction false} TrimEndPadded(s: string, pad: string)
    requires IsBlank(pad)
    requires s != [] && !IsJsSpace(s[|s| - 1])
    ensures TrimEnd(s + pad) == s
    decreases |pad|
  {
    if pad != [] {
      var init := pad[..|pad| - 1];
      assert (s + pad)[..|s + pad| - 1] == s + init;
      assert IsBlank(init) by {
        forall k | 0 <= k < |init|
          ensures IsJsSpace(init[k])
        {
          assert init[k] == pad[k];
        }
      }
      TrimEndPadded(s, init);
    } else {
      assert s + pad == s;
    }
  }

  // The storage path of an avatar URL.

  const ObjectMarker: string := "/storage/v1/object"
  const ObjectPrefix: string := "/storage/v1/object/"
  const PublicDir: string := "public/"
  const AvatarsDir: string := "avatars/"

  /** The characters a regular-expression `.` does not match. */
  predicate IsLineTerminator(c: char) {
    c == '\n' || c == '\r' || c == '\U{2028}' || c == '\U{2029}'
  }

  /** What `(.+)$` accepts: a non-empty rest of the input with no line terminator. */
  predicate ValidRest(rest: string) {
    rest != [] && forall k :: 0 <= k < |rest| ==> !IsLineTerminator(rest[k])
  }

  /** `/\/storage\/v1\/object\/(?:public\/)?avatars\/(.+)$/` matches at position `j`, capturing `rest`. */
  predicate PathAt(url: string, j: int, rest: string) {
    && 0 <= j <= |url|
    && ValidRest(rest)
    && (url[j..] == ObjectPrefix + PublicDir + AvatarsDir + rest || url[j..] == ObjectPrefix + AvatarsDir + rest)
  }

  /** The match attempt at one position: the captured rest, which is unique when it exists. */
  function MatchAt(url: string, j: int): (m: Option<string>)
    requires 0 <= j <= |url|
    ensures m.Some? ==> PathAt(url, j, m.value)
  {
    var s := url[j..];
    if !StartsWith(s, ObjectPrefix) then None
    else
      var after := s[|ObjectPrefix|..];
      assert s == ObjectPrefix + after;
      if StartsWith(after, PublicDir + AvatarsDir) && ValidRest(after[|PublicDir + AvatarsDir|..]) then
        assert after == PublicDir + AvatarsDir + after[|PublicDir + AvatarsDir|..];
        Some(after[|PublicDir + AvatarsDir|..])
      else if StartsWith(after, AvatarsDir) && ValidRest(after[|AvatarsDir|..]) then
        assert after == AvatarsDir + after[|AvatarsDir|..];
        Some(after[|AvatarsDir|..])
      else
        None
  }

  /** The match attempt finds every match there is, and its capture is the only one. */
  lemma MatchAtFindsPath(url: string, j: int, rest: string)
    requires PathAt(url, j, rest)
    ensures MatchAt(url, j) == Some(rest)
  {
    var s := url[j..];
    var after := s[|ObjectPrefix|..];
    assert PublicDir[0] == 'p' && AvatarsDir[0] == 'a';
    if s == ObjectPrefix + PublicDir + AvatarsDir + rest {
      assert s == ObjectPrefix + (PublicDir + AvatarsDir + rest);
      assert s[..|ObjectPrefix|] == ObjectPrefix;
      assert after == PublicDir + AvatarsDir + rest;
      assert after[..|PublicDir + AvatarsDir|] == PublicDir + AvatarsDir;
      assert after[|PublicDir + AvatarsDir|..] == rest;
    } else {
      assert s == ObjectPrefix + (AvatarsDir + rest);
      assert s[..|ObjectPrefix|] == ObjectPrefix;
      assert after == AvatarsDir + rest;
      assert after[0] == 'a';
      assert !StartsWith(after, PublicDir + AvatarsDir) by {
        assert (PublicDir + AvatarsDir)[0] == 'p';
      }
      assert after[..|AvatarsDir|] == AvatarsDir;
      assert after[|AvatarsDir|..] == rest;
    }
  }

  lemma NoMatchNoPath(url: string)
    requires forall i :: 0 <= i <= |url| ==> MatchAt(url, i).None?
    ensures forall k, rest :: !PathAt(url, k, rest)
  {
    forall k, rest | PathAt(url, k, rest)
      ensures false
    {
      MatchAtFindsPath(url, k, rest);
    }
  }

  /** The leftmost position at or after `j` where the pattern matches, as `String.prototype.match` finds it. */
  function FirstMatchIndex(url: string, j: int): (k: Option<int>)
    requires 0 <= j <= |url|
    ensures k.Some? ==> j <= k.value <= |url| && MatchAt(url, k.value).Some?
    ensures k.Some? ==> forall i :: j <= i < k.value ==> MatchAt(url, i).None?
    ensures k.None? ==> forall i :: j <= i <= |url| ==> MatchAt(url, i).None?
    decreases |url| - j
  {
    if MatchAt(url, j).Some? then Some(j)
    else if j == |url| then None
    else FirstMatchIndex(url, j + 1)
  }

  /** A match contains the `/storage/v1/object` marker, so the page's `includes` test never rejects one. */
  lemma MatchMentionsMarker(url: string, j: int)
    requires 0 <= j <= |url| && MatchAt(url, j).Some?
    ensures Contains(url, ObjectMarker)
  {
    assert StartsWith(url[j..], ObjectPrefix);
    MarkerStartsPrefix(url, j);
    OccurrenceIsContained(url, ObjectMarker, j);
  }

  /** Where the object prefix starts, so does the marker. */
  lemma MarkerStartsPrefix(url: string, j: int)
    requires 0 <= j <= |url| && StartsWith(url[j..], ObjectPrefix)
    ensures OccursAt(url, ObjectMarker, j)
  {
    assert ObjectPrefix == ObjectMarker + "/";
    assert url[j..j + |ObjectMarker|] == url[j..][..|ObjectPrefix|][..|ObjectMarker|];
  }

  /** No match attempt before position `k` succeeds. */
  predicate NoMatchBefore(url: string, k: int) {
    forall i :: 0 <= i < k && i <= |url| ==> MatchAt(url, i).None?
  }

  /**
   * The object to remove when the avatar is deleted: the capture of the leftmost
   * match, for a truthy URL that mentions `/storage/v1/object`, and nothing otherwise.
   */
  function AvatarStoragePath(currentUrl: Option<string>): (p: Option<string>)
    ensures p.Some? ==> Truthy(currentUrl) && ValidRest(p.value)
    ensures p.Some? ==> exists k :: PathAt(currentUrl.value, k, p.value) && NoMatchBefore(currentUrl.value, k)
    ensures Truthy(currentUrl) && p.None? ==> forall k, rest :: !PathAt(currentUrl.value, k, rest)
  {
    if !Truthy(currentUrl) then None
    else
      var url := currentUrl.value;
      var k := FirstMatchIndex(url, 0);
      if k.Some? then
        MatchMentionsMarker(url, k.value);
        MatchAt(url, k.value)
      else
        NoMatchNoPath(url);
        None
  }

  /**
   * A public avatar URL gives back the object path it was built from, provided
   * nothing before the object prefix already looks like one.
   */
  lemma PublicUrlYieldsPath(base: string, path: string)
    requires ValidRest(path)
    requires forall j :: 0 <= j < |base| ==> !OccursAt(base + ObjectPrefix, ObjectPrefix, j)
    ensures AvatarStoragePath(Some(base + ObjectPrefix + PublicDir + AvatarsDir + path)) == Some(path)
  {
    var url := base + ObjectPrefix + PublicDir + AvatarsDir + path;
    assert url[|base|..] == ObjectPrefix + PublicDir + AvatarsDir + path;
    assert PathAt(url, |base|, path);
    forall i | 0 <= i < |base|
      ensures MatchAt(url, i).None?
    {
      NoMatchBeforeBase(base, ObjectPrefix + PublicDir + AvatarsDir + path, i);
    }
    MatchAtFindsPath(url, |base|, path);
    FirstMatchIsLeftmost(url, 0, |base|);
  }

  /** The search returns the position of a match that has no match before it. */
  lemma {:induction false} FirstMatchIsLeftmost(url: string, j: int, k: int)
    requires 0 <= j <= k <= |url| && MatchAt(url, k).Some?
    requires forall i :: j <= i < k ==> MatchAt(url, i).None?
    ensures FirstMatchIndex(url, j) == Some(k)
    decreases k - j
  {
    if j < k {
      FirstMatchIsLeftmost(url, j + 1, k);
    }
  }

  lemma NoMatchBeforeBase(base: string, tail: string, i: int)
    requires StartsWith(tail, ObjectPrefix)
    requires 0 <= i < |base|
    requires !OccursAt(base + ObjectPrefix, ObjectPrefix, i)
    ensures MatchAt(base + tail, i).None?
  {
  }

  // The upload path.

  /** `${authUserId}/${Date.now()}.${ext}`. */
  function AvatarUploadPath(authUserId: string, timestamp: nat, fileName: string): string {
    authUserId + "/" + Decimal(timestamp) + "." + FileExtension(fileName)
  }

  /**
   * The object is stored in the user's own folder, and its extension, read back
   * from the path the same way, is the file's extension.
   */
  lemma UploadPathShape(authUserId: string, timestamp: nat, fileName: string)
    ensures StartsWith(AvatarUploadPath(authUserId, timestamp, fileName), authUserId + "/")
    ensures FileExtension(AvatarUploadPath(authUserId, timestamp, fileName)) == FileExtension(fileName)
  {
    var path := AvatarUploadPath(authUserId, timestamp, fileName);
    var base := authUserId + "/" + Decimal(timestamp);
    assert path == base + "." + FileExtension(fileName);
    assert path[..|authUserId + "/"|] == authUserId + "/";
    var ext := FileExtension(fileName);
    assert forall i :: 0 <= i < |ext| ==> ext[i] != '.' by {
      if LastSegment(fileName, '.') == [] {
        assert ext == DefaultExtension;
      }
    }
    ExtensionAfterLastDot(base, ext);
  }

  // The page's state and its handlers.

  /** The outcome of one provider or storage request: done, or failed with its message, if any. */
  datatype Step = Done | Fails(message: Option<string>)

  /** `err?.message ?? default`. */
  function ErrorText(s: Step, default: string): string
    requires s.Fails?
  {
    s.message.GetOr(default)
  }

  /** The form's three fields. */
  datatype ProfileForm = ProfileForm(userName: string, email: string, displayName: string)

  /** The selected file: its name, MIME type and size in bytes. */
  datatype AvatarFile = AvatarFile(name: string, mimeType: string, size: nat)

  /** The back end the page writes: the profile table, the provider's change requests and the `avatars` bucket. */
  class AccountServices {
    var profiles: map<string, UserProfile>
    var authUpdates: seq<AuthUpdate>
    var avatarObjects: set<string>

    constructor (profiles: map<string, UserProfile>, avatarObjects: set<string>)
      ensures this.profiles == profiles && this.authUpdates == [] && this.avatarObjects == avatarObjects
    {
      this.profiles := profiles;
      this.authUpdates := [];
      this.avatarObjects := avatarObjects;
    }
  }

  /** `.update({ name }).eq('id', id)`. */
  function RenameProfile(profiles: map<string, UserProfile>, id: string, name: string): map<string, UserProfile> {
    if id in profiles then profiles[id := profiles[id].(name := name)] else profiles
  }

  /** `me?.authUserId`, when truthy. */
  predicate SignedInMe(me: Option<Me>) {
    me.Some? && me.value.authUserId != []
  }

  class AccountPage {
    const services: AccountServices
    var avatarUrl: string
    var avatarUploading: bool
    var avatarError: Option<string>
    var savingProfile: bool
    var saveMessage: Option<string>
    var saveError: Option<string>

    constructor (services: AccountServices)
      ensures this.services == services
      ensures avatarUrl == FallbackAvatar && !avatarUploading && avatarError == None
      ensures !savingProfile && saveMessage == None && saveError == None
    {
      this.services := services;
      avatarUrl := FallbackAvatar;
      avatarUploading := false;
      avatarError := None;
      savingProfile := false;
      saveMessage := None;
      saveError := None;
    }

    /** The avatar effect: the user's avatar, else the mock user's. */
    method ShowAvatar(me: Option<Me>)
      modifies this`avatarUrl
      ensures avatarUrl == ChooseAvatar(if me.Some? then me.value.avatarUrl else None, Some(MockAvatar))
    {
      avatarUrl := ChooseAvatar(if me.Some? then me.value.avatarUrl else None, Some(MockAvatar));
    }

    /** `handleAvatarButtonClick`: opening the file picker clears the avatar error. */
    method AvatarButtonClick()
      modifies this`avatarError
      ensures avatarError == None
    {
      avatarError := None;
    }

    /**
     * `handleSaveProfile`: a blank user name fails before any write; otherwise the
     * profile name is written, then the provider update, and the first failure's
     * message is shown.
     */
    method SaveProfile(me: Option<Me>, form: ProfileForm, profileWrite: Step, authWrite: Step)
      modifies this`savingProfile, this`saveMessage, this`saveError, services
      ensures !SignedInMe(me) ==>
        && saveError == Some(NoLoginMessage) && saveMessage == old(saveMessage) && savingProfile == old(savingProfile)
        && services.profiles == old(services.profiles) && services.authUpdates == old(services.authUpdates)
      ensures SignedInMe(me) && IsBlank(form.userName) ==>
        && saveError == Some(EmptyUserNameMessage) && saveMessage == None && !savingProfile
        && services.profiles == old(services.profiles) && services.authUpdates == old(services.authUpdates)
      ensures SignedInMe(me) && !IsBlank(form.userName) && profileWrite.Fails? ==>
        && saveError == Some(ErrorText(profileWrite, ProfileSaveFailedMessage)) && saveMessage == None && !savingProfile
        && services.profiles == old(services.profiles) && services.authUpdates == old(services.authUpdates)
      ensures SignedInMe(me) && !IsBlank(form.userName) && profileWrite.Done? ==>
        && services.profiles == RenameProfile(old(services.profiles), me.value.authUserId, Trim(form.userName))
        && services.authUpdates == old(services.authUpdates) + [ProfileAuthUpdate(form.email, form.displayName, me.value.email)]
        && !savingProfile
        && (authWrite.Fails? ==> saveError == Some(ErrorText(authWrite, ProfileSaveFailedMessage)) && saveMessage == None)
        && (authWrite.Done? ==> saveError == None && saveMessage == Some(ProfileSavedMessage))
      ensures services.avatarObjects == old(services.avatarObjects)
    {
      if !SignedInMe(me) {
        saveError := Some(NoLoginMessage);
        return;
      }
      savingProfile := true;
      saveError := None;
      saveMessage := None;

      var trimmedUserName := Trim(form.userName);
      if trimmedUserName == [] {
        saveError := Some(EmptyUserNameMessage);
        savingProfile := false;
        return;
      }
      WriteProfile(me.value.authUserId, trimmedUserName,
                   ProfileAuthUpdate(form.email, form.displayName, me.value.email), profileWrite, authWrite);
    }

    /** The writes of `handleSaveProfile`: the profile name, then the provider update. */
    method WriteProfile(authUserId: string, name: string, authUpdate: AuthUpdate, profileWrite: Step, authWrite: Step)
      modifies this`savingProfile, this`saveMessage, this`saveError, services
      ensures profileWrite.Fails? ==>
        && saveError == Some(ErrorText(profileWrite, ProfileSaveFailedMessage)) && saveMessage == old(saveMessage)
        && services.profiles == old(services.profiles) && services.authUpdates == old(services.authUpdates)
      ensures profileWrite.Done? ==>
        && services.profiles == RenameProfile(old(services.profiles), authUserId, name)
        && services.authUpdates == old(services.authUpdates) + [authUpdate]
        && (authWrite.Fails? ==> saveError == Some(ErrorText(authWrite, ProfileSaveFailedMessage)) && saveMessage == old(saveMessage))
        && (authWrite.Done? ==> saveError == old(saveError) && saveMessage == Some(ProfileSavedMessage))
      ensures !savingProfile && services.avatarObjects == old(services.avatarObjects)
    {
      if profileWrite.Fails? {
        saveError := Some(ErrorText(profileWrite, ProfileSaveFailedMessage));
        savingProfile := false;
        return;
      }
      services.profiles := RenameProfile(services.profiles, authUserId, name);
      services.authUpdates := services.authUpdates + [authUpdate];
      if authWrite.Fails? {
        saveError := Some(ErrorText(authWrite, ProfileSaveFailedMessage));
        savingProfile := false;
        return;
      }
      saveMessage := Some(ProfileSavedMessage);
      savingProfile := false;
    }

    /**
     * `handleAvatarDelete`: remove the stored object when the URL names one, then
     * clear `avatar_url` whether or not the removal worked.
     */
    method AvatarDelete(me: Option<Me>, remove: Step, clear: Step)
      modifies this`avatarUrl, this`avatarUploading, this`avatarError, services
      ensures !SignedInMe(me) ==>
        && avatarError == Some(NoLoginMessage) && avatarUrl == old(avatarUrl) && avatarUploading == old(avatarUploading)
        && services.avatarObjects == old(services.avatarObjects) && services.authUpdates == old(services.authUpdates)
      ensures SignedInMe(me) ==>
        var path := AvatarStoragePath(if Truthy(me.value.avatarUrl) then me.value.avatarUrl
                                      else if old(avatarUrl) != [] then Some(old(avatarUrl)) else None);
        var removeFailed := path.Some? && remove.Fails?;
        && !avatarUploading
        && services.avatarObjects == (if path.Some? && remove.Done? then old(services.avatarObjects) - {path.value}
                                      else old(services.avatarObjects))
        && services.authUpdates == old(services.authUpdates) + [AvatarUpdate(None)]
        && (clear.Fails? ==> avatarUrl == old(avatarUrl) && avatarError == Some(ErrorText(clear, DeleteFailedMessage)))
        && (clear.Done? ==>
              && avatarUrl == MockAvatar
              && avatarError == (if removeFailed then Some(ErrorText(remove, RemoveFailedMessage)) else None))
      ensures services.profiles == old(services.profiles)
    {
      if !SignedInMe(me) {
        avatarError := Some(NoLoginMessage);
        return;
      }
      avatarUploading := true;
      avatarError := None;

      var currentUrl := if Truthy(me.value.avatarUrl) then me.value.avatarUrl
                        else if avatarUrl != [] then Some(avatarUrl) else None;
      var storagePath := AvatarStoragePath(currentUrl);
      RemoveAvatar(storagePath, remove, clear);
    }

    /** The writes of `handleAvatarDelete`: remove the object, if any, then clear the provider's `avatar_url`. */
    method RemoveAvatar(storagePath: Option<string>, remove: Step, clear: Step)
      requires avatarError == None
      modifies this`avatarUrl, this`avatarUploading, this`avatarError, services
      ensures !avatarUploading
      ensures services.avatarObjects == (if storagePath.Some? && remove.Done? then old(services.avatarObjects) - {storagePath.value}
                                         else old(services.avatarObjects))
      ensures services.authUpdates == old(services.authUpdates) + [AvatarUpdate(None)]
      ensures clear.Fails? ==> avatarUrl == old(avatarUrl) && avatarError == Some(ErrorText(clear, DeleteFailedMessage))
      ensures clear.Done? ==>
        && avatarUrl == MockAvatar
        && avatarError == (if storagePath.Some? && remove.Fails? then Some(ErrorText(remove, RemoveFailedMessage)) else None)
      ensures services.profiles == old(services.profiles)
    {
      if storagePath.Some? {
        if remove.Fails? {
          avatarError := Some(ErrorText(remove, RemoveFailedMessage));
        } else {
          services.avatarObjects := services.avatarObjects - {storagePath.value};
        }
      }

      services.authUpdates := services.authUpdates + [AvatarUpdate(None)];
      if clear.Fails? {
        avatarError := Some(ErrorText(clear, DeleteFailedMessage));
        avatarUploading := false;
        return;
      }
      avatarUrl := MockAvatar;
      avatarUploading := false;
    }

    /**
     * `handleAvatarFileChange`: the type, then the size, then the session are
     * checked before anything is uploaded; the file goes to the user's folder and
     * its public URL becomes the avatar.
     */
    method AvatarFileChange(me: Option<Me>, file: Option<AvatarFile>, timestamp: nat,
                            upload: Step, publicUrl: string, update: Step)
      modifies this`avatarUrl, this`avatarUploading, this`avatarError, services
      ensures file.None? ==>
        avatarUrl == old(avatarUrl) && avatarError == old(avatarError) && avatarUploading == old(avatarUploading)
      ensures file.Some? && !IsImageType(file.value.mimeType) ==>
        avatarError == Some(NotAnImageMessage) && avatarUrl == old(avatarUrl) && avatarUploading == old(avatarUploading)
      ensures file.Some? && IsImageType(file.value.mimeType) && file.value.size > MaxAvatarSize ==>
        avatarError == Some(TooLargeMessage) && avatarUrl == old(avatarUrl) && avatarUploading == old(avatarUploading)
      ensures file.Some? && IsImageType(file.value.mimeType) && file.value.size <= MaxAvatarSize && !SignedInMe(me) ==>
        avatarError == Some(NoLoginMessage) && avatarUrl == old(avatarUrl) && avatarUploading == old(avatarUploading)
      ensures file.None? || !IsImageType(file.value.mimeType) || file.value.size > MaxAvatarSize || !SignedInMe(me) ==>
        services.avatarObjects == old(services.avatarObjects) && services.authUpdates == old(services.authUpdates)
      ensures file.Some? && IsImageType(file.value.mimeType) && file.value.size <= MaxAvatarSize && SignedInMe(me) ==>
        var path := AvatarUploadPath(me.value.authUserId, timestamp, file.value.name);
        && !avatarUploading
        && (upload.Fails? ==>
              && services.avatarObjects == old(services.avatarObjects) && services.authUpdates == old(services.authUpdates)
              && avatarUrl == old(avatarUrl) && avatarError == Some(UploadErrorText(upload.message, AvatarTexts)))
        && (upload.Done? ==>
              && services.avatarObjects == old(services.avatarObjects) + {path}
              && services.authUpdates == old(services.authUpdates) + [AvatarUpdate(Some(publicUrl))]
              && (update.Fails? ==> avatarUrl == old(avatarUrl) && avatarError == Some(UploadErrorText(update.message, AvatarTexts)))
              && (update.Done? ==> avatarUrl == publicUrl && avatarError == None))
      ensures services.profiles == old(services.profiles)
    {
      if file.None? {
        return;
      }
      var f := file.value;
      if !IsImageType(f.mimeType) {
        avatarError := Some(NotAnImageMessage);
        return;
      }
      if f.size > MaxAvatarSize {
        avatarError := Some(TooLargeMessage);
        return;
      }
      if !SignedInMe(me) {
        avatarError := Some(NoLoginMessage);
        return;
      }
      avatarUploading := true;
      avatarError := None;

      var filePath := AvatarUploadPath(me.value.authUserId, timestamp, f.name);
      StoreAvatar(filePath, upload, publicUrl, update);
    }

    /** The writes of `handleAvatarFileChange`: the upload, then the provider's `avatar_url`. */
    method StoreAvatar(filePath: string, upload: Step, publicUrl: string, update: Step)
      requires avatarError == None
      modifies this`avatarUrl, this`avatarUploading, this`avatarError, services
      ensures !avatarUploading
      ensures upload.Fails? ==>
        && services.avatarObjects == old(services.avatarObjects) && services.authUpdates == old(services.authUpdates)
        && avatarUrl == old(avatarUrl) && avatarError == Some(UploadErrorText(upload.message, AvatarTexts))
      ensures upload.Done? ==>
        && services.avatarObjects == old(services.avatarObjects) + {filePath}
        && services.authUpdates == old(services.authUpdates) + [AvatarUpdate(Some(publicUrl))]
        && (update.Fails? ==> avatarUrl == old(avatarUrl) && avatarError == Some(UploadErrorText(update.message, AvatarTexts)))
        && (update.Done? ==> avatarUrl == publicUrl && avatarError == None)
      ensures services.profiles == old(services.profiles)
    {
      if upload.Fails? {
        avatarError := Some(UploadErrorText(upload.message, AvatarTexts));
        avatarUploading := false;
        return;
      }
      services.avatarObjects := services.avatarObjects + {filePath};
      services.authUpdates := services.authUpdates + [AvatarUpdate(Some(publicUrl))];
      if update.Fails? {
        avatarError := Some(UploadErrorText(update.message, AvatarTexts));
        avatarUploading := false;
        return;
      }
      avatarUrl := publicUrl;
      avatarUploading := false;
    }
  }
}
