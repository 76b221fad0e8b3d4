/**
 The attachment-id variant of the plugin (class `Custom_User_Avatars` in
 wpadmin-avatar.php). A user's custom avatar is the id of a media-library
 attachment kept under the user meta key `custom_avatar_id`; the `get_avatar`
 filter resolves it to a URL of the requested size and prints its own `<img>`
 tag, or hands back WordPress's default markup untouched.
 */
module CustomUserAvatars {
  import opened Php
  import opened Html
  import opened WordPress

  /** The user meta key this variant reads and writes. */
  const MetaKey := "custom_avatar_id"

  /** The action name the upload nonce is created and checked with. */
  const NonceAction := "custom_avatar_upload_nonce"

  /** The entries of the user meta table under `MetaKey`, one per user. */
  type AvatarStore = map<UserId, int>

  /** The `class` and `extra_attr` entries of the filter's `$args` array, when set. */
  datatype AvatarArgs = AvatarArgs(cssClass: Option<string>, extraAttr: Option<string>)

  /**
   The user id `get_custom_avatar` derives from `$id_or_email`: a numeric value
   is cast, a string is looked up as an e-mail address, an object's set
   `user_id` wins over its `ID`; 0 stands for "no user".
   */
  function ResolveUserId(userByEmail: string -> Option<UserId>, who: Identity): (uid: UserId)
    ensures who.Numeric? ==> uid == who.n
    ensures who.Str? ==> uid == userByEmail(who.s).GetOr(0)
    ensures who.Obj? && who.userId.Set? ==> uid == who.userId.asInt
    ensures who.Obj? && who.userId.Unset? && who.id.Set? ==> uid == who.id.asInt
    ensures who.Obj? && who.userId.Unset? && who.id.Unset? ==> uid == 0
    ensures who.Other? ==> uid == 0
  {
    match who
    case Numeric(n) => n
    case Str(s) => userByEmail(s).GetOr(0)
    case Obj(userId, id) =>
      if userId.Set? then userId.asInt
      else if id.Set? then id.asInt
      else 0
    case Other => 0
  }

  /** `get_user_meta($user_id, 'custom_avatar_id', true)` when it is truthy. */
  function StoredAttachmentId(store: AvatarStore, uid: UserId): (r: Option<int>)
    ensures r.Some? <==> uid in store && store[uid] != 0
    ensures r.Some? ==> r.value == store[uid]
  {
    if uid in store && store[uid] != 0 then Some(store[uid]) else None
  }

  /**
   The URL of the user's custom avatar at `size` x `size`: present only when a
   truthy attachment id is stored and the media library gives a truthy URL for it.
   */
  function CustomAvatarUrl(site: Site, store: AvatarStore, uid: UserId, size: int): (r: Option<string>)
    ensures r.Some? <==>
              StoredAttachmentId(store, uid).Some? &&
              Truthy(site.attachmentUrl(StoredAttachmentId(store, uid).value, Dimensions(size, size)))
    ensures r.Some? ==>
              Some(r.value) == site.attachmentUrl(store[uid], Dimensions(size, size)) && !IsEmpty(r.value)
  {
    match StoredAttachmentId(store, uid)
    case None => None
    case Some(avatarId) =>
      var url := site.attachmentUrl(avatarId, Dimensions(size, size));
      if Truthy(url) then url else None
  }

  /** An explicit non-empty `$alt` is escaped; otherwise the raw display name is used. */
  function AvatarAlt(site: Site, uid: UserId, alt: string): string {
    if !IsEmpty(alt) then site.esc.attr(alt) else site.displayName(uid)
  }

  /** The caller's class, escaped, or `avatar avatar-{size} photo`. */
  function AvatarClass(site: Site, size: int, args: AvatarArgs): string {
    match args.cssClass
    case Some(c) => site.esc.attr(c)
    case None => SizeClass(size)
  }

  function ExtraAttr(args: AvatarArgs): string {
    args.extraAttr.GetOr("")
  }

  /** The five attributes of the custom tag, in the order the source prints them. */
  function CustomAvatarAttrs(site: Site, uid: UserId, url: string, size: int, alt: string, args: AvatarArgs): seq<Attr> {
    var sizeText := site.esc.attr(IntToString(size));
    [ Attr("alt", AvatarAlt(site, uid, alt)),
      Attr("src", site.esc.url(url)),
      Attr("class", AvatarClass(site, size, args)),
      Attr("height", sizeText),
      Attr("width", sizeText) ]
  }

  /** The custom tag can be read back attribute by attribute: no printed value holds a `"`. */
  ghost predicate TagReadable(site: Site, uid: UserId, alt: string) {
    EscapesQuotes(site.esc) && (IsEmpty(alt) ==> QuoteFree(site.displayName(uid)))
  }

  lemma CustomAvatarAttrsWellFormed(site: Site, uid: UserId, url: string, size: int, alt: string, args: AvatarArgs)
    ensures TagReadable(site, uid, alt) ==> AllWellFormed(CustomAvatarAttrs(site, uid, url, size, alt, args))
  {
  }

  /**
   `get_custom_avatar`: the `get_avatar` filter. It never writes the store (it
   is a function of it) and returns `$avatar` unchanged unless a user id, a
   stored attachment id and a URL are all found.
   */
  function GetCustomAvatar(site: Site, store: AvatarStore, avatar: string, who: Identity,
                           size: int, alt: string, args: AvatarArgs): (r: string)
    ensures ResolveUserId(site.userByEmail, who) == 0 ==> r == avatar
    ensures StoredAttachmentId(store, ResolveUserId(site.userByEmail, who)).None? ==> r == avatar
    ensures CustomAvatarUrl(site, store, ResolveUserId(site.userByEmail, who), size).None? ==> r == avatar
    ensures var uid := ResolveUserId(site.userByEmail, who);
            var url := CustomAvatarUrl(site, store, uid, size);
            uid != 0 && url.Some? && TagReadable(site, uid, alt) ==>
              ParseImg(r, 5) == Some((CustomAvatarAttrs(site, uid, url.value, size, alt, args),
                                      " " + ExtraAttr(args) + " />"))
  {
    var uid := ResolveUserId(site.userByEmail, who);
    if uid == 0 then avatar
    else
      match CustomAvatarUrl(site, store, uid, size)
      case None => avatar
      case Some(url) =>
        var attrs := CustomAvatarAttrs(site, uid, url, size, alt, args);
        var tail := " " + ExtraAttr(args);
        CustomAvatarAttrsWellFormed(site, uid, url, size, alt, args);
        ParseRenderImg(attrs, tail);
        RenderImg(attrs, tail)
  }

  /**
   `save_user_avatar`: without `edit_user` on the profile, or without a posted
   `custom_avatar_id`, nothing happens; otherwise a positive `absint` of the
   posted value is stored for that user and anything else deletes the entry.
   `posted` is the `(int)` cast of `$_POST['custom_avatar_id']`, when set.
   */
  function SaveUserAvatar(session: Session, store: AvatarStore, userId: UserId, posted: Option<int>): (r: AvatarStore)
    ensures !session.canEditUser(userId) || posted.None? ==> r == store
    ensures session.canEditUser(userId) && posted.Some? && posted.value != 0 ==>
              userId in r && r[userId] == AbsInt(posted.value) && r[userId] > 0
    ensures session.canEditUser(userId) && posted == Some(0) ==> userId !in r
    ensures forall u :: u != userId ==> (u in r <==> u in store)
    ensures forall u :: u != userId && u in r ==> r[u] == store[u]
  {
    if !session.canEditUser(userId) then store
    else
      match posted
      case None => store
      case Some(n) =>
        var avatarId := AbsInt(n);
        if avatarId > 0 then store[userId := avatarId] else store - {userId}
  }

  /** The POST fields `ajax_upload_user_avatar` reads; `attachmentId` is the `(int)` cast, when set. */
  datatype AjaxRequest = AjaxRequest(nonce: Option<string>, attachmentId: Option<int>)

  datatype AjaxError =
    | SecurityCheckFailed
    | UploadNotAllowed
    | InvalidAttachmentId
    | ImageUrlUnavailable

  /** The JSON reply `wp_send_json_error` / `wp_send_json_success` ends the request with. */
  datatype AjaxResponse =
    | JsonError(error: AjaxError)
    | JsonSuccess(attachmentId: int, attachmentUrl: string)

  predicate NonceAccepted(session: Session, request: AjaxRequest) {
    request.nonce.Some? && session.verifyNonce(request.nonce.value, NonceAction)
  }

  predicate MayUpload(session: Session) {
    session.loggedIn && session.canUploadFiles
  }

  /** `absint($_POST['attachment_id'])`, or 0 when it is not posted. */
  function RequestedAttachment(request: AjaxRequest): nat {
    match request.attachmentId
    case None => 0
    case Some(n) => AbsInt(n)
  }

  /**
   `ajax_upload_user_avatar`: nonce, then login and `upload_files`, then a
   positive attachment id, then a thumbnail URL; the first check that fails
   decides the error, and success echoes the id with its thumbnail URL.
   */
  function AjaxUploadUserAvatar(site: Site, session: Session, request: AjaxRequest): (r: AjaxResponse)
    ensures r == JsonError(SecurityCheckFailed) <==> !NonceAccepted(session, request)
    ensures r == JsonError(UploadNotAllowed) <==> NonceAccepted(session, request) && !MayUpload(session)
    ensures r == JsonError(InvalidAttachmentId) <==>
              NonceAccepted(session, request) && MayUpload(session) && RequestedAttachment(request) == 0
    ensures r == JsonError(ImageUrlUnavailable) <==>
              NonceAccepted(session, request) && MayUpload(session) && RequestedAttachment(request) > 0 &&
              !Truthy(site.attachmentUrl(RequestedAttachment(request), Named("thumbnail")))
    ensures r.JsonSuccess? ==>
              r.attachmentId == RequestedAttachment(request) > 0 &&
              Some(r.attachmentUrl) == site.attachmentUrl(r.attachmentId, Named("thumbnail")) &&
              !IsEmpty(r.attachmentUrl)
  {
    if !NonceAccepted(session, request) then JsonError(SecurityCheckFailed)
    else if !MayUpload(session) then JsonError(UploadNotAllowed)
    else
      var attachmentId := RequestedAttachment(request);
      if attachmentId <= 0 then JsonError(InvalidAttachmentId)
      else
        var url := site.attachmentUrl(attachmentId, Named("thumbnail"));
        if !Truthy(url) then JsonError(ImageUrlUnavailable)
        else JsonSuccess(attachmentId, url.value)
  }

  /** One validation step: whether it passed, and the error it reports when it did not. */
  datatype Check = Check(passed: bool, error: AjaxError)

  /** The error of the first check in `checks` that fails, if any. */
  function FirstFailure(checks: seq<Check>): Option<AjaxError> {
    if |checks| == 0 then None
    else if !checks[0].passed then Some(checks[0].error)
    else FirstFailure(checks[1..])
  }

  /** `FirstFailure` reports nothing exactly when every check passes, and otherwise the earliest failure. */
  lemma {:induction false} FirstFailureIsFirst(checks: seq<Check>)
    ensures FirstFailure(checks).None? <==> forall i :: 0 <= i < |checks| ==> checks[i].passed
    ensures FirstFailure(checks).Some? ==>
              exists i :: 0 <= i < |checks| && !checks[i].passed && checks[i].error == FirstFailure(checks).value &&
                          forall j :: 0 <= j < i ==> checks[j].passed
    decreases |checks|
  {
    if |checks| > 0 && checks[0].passed {
      var tail := checks[1..];
      FirstFailureIsFirst(tail);
      assert forall i :: 1 <= i < |checks| ==> checks[i] == tail[i - 1];
      if FirstFailure(tail).Some? {
        var i :| 0 <= i < |tail| && !tail[i].passed && tail[i].error == FirstFailure(tail).value &&
                 forall j :: 0 <= j < i ==> tail[j].passed;
        assert checks[i + 1] == tail[i];
        assert forall j :: 0 <= j < i + 1 ==> checks[j].passed by {
          forall j | 0 <= j < i + 1 ensures checks[j].passed {
            if j > 0 {
              assert checks[j] == tail[j - 1];
            }
          }
        }
      }
    }
  }

  /** The endpoint's four checks, in the order the source runs them. */
  function AjaxChecks(site: Site, session: Session, request: AjaxRequest): seq<Check> {
    [ Check(NonceAccepted(session, request), SecurityCheckFailed),
      Check(MayUpload(session), UploadNotAllowed),
      Check(RequestedAttachment(request) > 0, InvalidAttachmentId),
      Check(Truthy(site.attachmentUrl(RequestedAttachment(request), Named("thumbnail"))), ImageUrlUnavailable) ]
  }

  /**
   The endpoint fails exactly when one of its checks fails, and then with the
   error of the first failing check; otherwise it succeeds.
   */
  lemma AjaxReportsFirstFailure(site: Site, session: Session, request: AjaxRequest)
    ensures var r := AjaxUploadUserAvatar(site, session, request);
            match FirstFailure(AjaxChecks(site, session, request))
            case Some(e) => r == JsonError(e)
            case None => r.JsonSuccess?
  {
    var checks := AjaxChecks(site, session, request);
    FirstFailureIsFirst(checks);
    var f := FirstFailure(checks);
    if f.Some? {
      var i :| 0 <= i < |checks| && !checks[i].passed && checks[i].error == f.value &&
               forall j :: 0 <= j < i ==> checks[j].passed;
      if i > 0 { assert checks[0].passed; }
      if i > 1 { assert checks[1].passed; }
      if i > 2 { assert checks[2].passed; }
    } else {
      assert checks[0].passed && checks[1].passed && checks[2].passed && checks[3].passed;
    }
  }

  /**
   Saving a non-zero id for a user and then rendering any identity that
   resolves to that user prints the media library's URL for the saved id as `src`.
   */
  lemma SavedAvatarIsRendered(site: Site, session: Session, store: AvatarStore, who: Identity, n: int,
                              avatar: string, size: int, alt: string, args: AvatarArgs)
    requires session.canEditUser(ResolveUserId(site.userByEmail, who))
    requires ResolveUserId(site.userByEmail, who) != 0 && n != 0
    requires Truthy(site.attachmentUrl(AbsInt(n), Dimensions(size, size)))
    requires TagReadable(site, ResolveUserId(site.userByEmail, who), alt)
    ensures var saved := SaveUserAvatar(session, store, ResolveUserId(site.userByEmail, who), Some(n));
            ImgAttr(GetCustomAvatar(site, saved, avatar, who, size, alt, args), 5, "src")
              == Some(site.esc.url(site.attachmentUrl(AbsInt(n), Dimensions(size, size)).value))
  {
    var uid := ResolveUserId(site.userByEmail, who);
    var saved := SaveUserAvatar(session, store, uid, Some(n));
    var url := CustomAvatarUrl(site, saved, uid, size);
    assert url == site.attachmentUrl(AbsInt(n), Dimensions(size, size));
    var attrs := CustomAvatarAttrs(site, uid, url.value, size, alt, args);
    assert Lookup(attrs, "src") == Some(site.esc.url(url.value));
  }

  /** Posting 0 for a user clears the avatar: every identity of that user then gets `$avatar`. */
  lemma ClearedAvatarFallsBack(site: Site, session: Session, store: AvatarStore, who: Identity,
                               avatar: string, size: int, alt: string, args: AvatarArgs)
    requires session.canEditUser(ResolveUserId(site.userByEmail, who))
    ensures var saved := SaveUserAvatar(session, store, ResolveUserId(site.userByEmail, who), Some(0));
            GetCustomAvatar(site, saved, avatar, who, size, alt, args) == avatar
  {
  }

  /** A save for one user leaves the avatar every other user's identities render to unchanged. */
  lemma SaveLeavesOthersAlone(site: Site, session: Session, store: AvatarStore, userId: UserId, posted: Option<int>,
                              who: Identity, avatar: string, size: int, alt: string, args: AvatarArgs)
    requires ResolveUserId(site.userByEmail, who) != userId
    ensures GetCustomAvatar(site, SaveUserAvatar(session, store, userId, posted), avatar, who, size, alt, args)
         == GetCustomAvatar(site, store, avatar, who, size, alt, args)
  {
    var uid := ResolveUserId(site.userByEmail, who);
    var saved := SaveUserAvatar(session, store, userId, posted);
    assert StoredAttachmentId(saved, uid) == StoredAttachmentId(store, uid);
  }

  /**
   A concrete site: bob@example.com is user 7, attachment 42 has the 150 x 150
   URL https://cdn/ex/42-150.jpg, and the escapers change nothing.
   */
  function ExampleSite(): Site {
    Site(
      s => if s == "bob@example.com" then Some(7) else None,
      (id, size) => if id == 42 && size == Dimensions(150, 150) then Some("https://cdn/ex/42-150.jpg") else None,
      uid => "Bob",
      s => true,
      Escaper(s => s, s => s, s => s))
  }

  /** The attributes the example below prints, in order. */
  const ExampleAttrs := [ Attr("alt", "Bob"), Attr("src", "https://cdn/ex/42-150.jpg"),
                           Attr("class", "avatar avatar-150 photo"), Attr("height", "150"), Attr("width", "150") ]

  /** The example's attributes, built from the example site's values. */
  lemma ExampleAttrsBuilt()
    ensures CustomAvatarAttrs(ExampleSite(), 7, "https://cdn/ex/42-150.jpg", 150, "Bob", AvatarArgs(None, None))
         == ExampleAttrs
  {
    var site := ExampleSite();
    assert NatToString(1) == "1";
    assert NatToString(15) == "15";
    assert IntToString(150) == "150";
    assert AvatarAlt(site, 7, "Bob") == "Bob";
    assert AvatarClass(site, 150, AvatarArgs(None, None)) == "avatar avatar-150 photo";
  }

  /**
   User 7 with attachment 42, rendered by e-mail at size 150 with alt "Bob",
   prints `<img alt="Bob" src="https://cdn/ex/42-150.jpg" class="avatar avatar-150 photo"
   height="150" width="150"  />` (the empty `extra_attr` leaves two spaces before `/>`).
   */
  lemma ExampleRender()
    ensures GetCustomAvatar(ExampleSite(), map[7 := 42], "<img src=default.png>", Str("bob@example.com"),
                            150, "Bob", AvatarArgs(None, None))
         == RenderImg(ExampleAttrs, " ")
  {
    var site := ExampleSite();
    assert ResolveUserId(site.userByEmail, Str("bob@example.com")) == 7;
    assert CustomAvatarUrl(site, map[7 := 42], 7, 150) == Some("https://cdn/ex/42-150.jpg");
    assert ExtraAttr(AvatarArgs(None, None)) == "";
    ExampleAttrsBuilt();
  }
}
