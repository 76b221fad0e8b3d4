/**
 The URL variant of the plugin (class `WPAdmin_Avatar` in
 class-wpadmin-avatar.php). A user's custom avatar is a raw URL kept under the
 user meta key `wpadmin_avatar_url`, validated every time it is read; the
 `get_avatar` filter and the `[wpadmin_avatar]` shortcode print an `<img>` tag
 for it, the filter falling back to WordPress's markup and the shortcode to "".
 */
module WpAdminAvatar {
  import opened Php
  import opened Html
  import opened WordPress

  /** The user meta key this variant reads and writes. */
  const MetaKey := "wpadmin_avatar_url"

  /** Defaults of `get_avatar_html` and of the shortcode's attributes. */
  const DefaultSize := 150
  const DefaultAlt := "Аватар пользователя"

  /** The entries of the user meta table under `MetaKey`, one per user. */
  type UrlStore = map<UserId, string>

  /** `get_user_meta($user_id, 'wpadmin_avatar_url', true)`: "" when nothing is stored. */
  function StoredUrl(store: UrlStore, uid: UserId): string {
    if uid in store then store[uid] else ""
  }

  /** `get_avatar_url`: the stored URL when it is non-empty and passes URL validation, else `false`. */
  function GetAvatarUrl(site: Site, store: UrlStore, uid: UserId): (r: Option<string>)
    ensures r.Some? <==> uid in store && !IsEmpty(store[uid]) && site.isValidUrl(store[uid])
    ensures r.Some? ==> r.value == store[uid] && Truthy(r)
  {
    var url := StoredUrl(store, uid);
    if !IsEmpty(url) && site.isValidUrl(url) then Some(url) else None
  }

  /** The five attributes of the tag, in the order the source prints them; the size is `(int) $size`. */
  function AvatarHtmlAttrs(site: Site, url: string, size: int, alt: string): seq<Attr> {
    var n := IntToString(size);
    [ Attr("src", site.esc.url(url)),
      Attr("class", SizeClass(size)),
      Attr("width", n),
      Attr("height", n),
      Attr("alt", site.esc.attr(alt)) ]
  }

  lemma AvatarHtmlAttrsWellFormed(site: Site, url: string, size: int, alt: string)
    ensures EscapesQuotes(site.esc) ==> AllWellFormed(AvatarHtmlAttrs(site, url, size, alt))
  {
  }

  /**
   `get_avatar_html`: `false` exactly when `get_avatar_url` is `false`; otherwise
   a tag whose attributes read back as the escaped URL, the size class, the size
   as width and height, and the escaped alt text.
   */
  function GetAvatarHtml(site: Site, store: UrlStore, uid: UserId, size: int, alt: string): (r: Option<string>)
    ensures r.None? <==> GetAvatarUrl(site, store, uid).None?
    ensures r.Some? ==> Truthy(r)
    ensures r.Some? && EscapesQuotes(site.esc) ==>
              ParseImg(r.value, 5) == Some((AvatarHtmlAttrs(site, store[uid], size, alt), " />"))
  {
    match GetAvatarUrl(site, store, uid)
    case None => None
    case Some(url) =>
      var attrs := AvatarHtmlAttrs(site, url, size, alt);
      AvatarHtmlAttrsWellFormed(site, url, size, alt);
      ParseRenderImg(attrs, "");
      RenderImgNotEmpty(attrs, "");
      assert url == store[uid];
      assert "" + " />" == " />";
      Some(RenderImg(attrs, ""))
  }

  /**
   `get_user_id_from_identifier`: a numeric value is cast; an object with a
   non-empty `user_id` gives its cast; a string is looked up as an e-mail
   address; anything else, an object with only `ID` included, gives `false`.
   */
  function UserIdFromIdentifier(userByEmail: string -> Option<UserId>, who: Identity): (r: Option<UserId>)
    ensures who.Numeric? ==> r == Some(who.n)
    ensures who.Obj? && who.userId.Set? && who.userId.nonEmpty ==> r == Some(who.userId.asInt)
    ensures who.Obj? && !(who.userId.Set? && who.userId.nonEmpty) ==> r.None?
    ensures who.Str? ==> r == userByEmail(who.s)
    ensures who.Other? ==> r.None?
  {
    match who
    case Numeric(n) => Some(n)
    case Obj(userId, _) => if userId.Set? && userId.nonEmpty then Some(userId.asInt) else None
    case Str(s) => userByEmail(s)
    case Other => None
  }

  /** `if ($user_id)` on an `int|false`: only a non-zero id is truthy. */
  predicate IsUser(uid: Option<UserId>) {
    uid.Some? && uid.value != 0
  }

  /**
   `filter_avatar`: the custom tag when the identity resolves to a truthy user
   id that has a valid stored URL; `$avatar` unchanged otherwise.
   */
  function FilterAvatar(site: Site, store: UrlStore, avatar: string, who: Identity, size: int, alt: string): (r: string)
    ensures var uid := UserIdFromIdentifier(site.userByEmail, who);
            IsUser(uid) && GetAvatarUrl(site, store, uid.value).Some? ==>
              Some(r) == GetAvatarHtml(site, store, uid.value, size, alt)
    ensures var uid := UserIdFromIdentifier(site.userByEmail, who);
            !IsUser(uid) || GetAvatarUrl(site, store, uid.value).None? ==> r == avatar
  {
    var uid := UserIdFromIdentifier(site.userByEmail, who);
    if IsUser(uid) then
      match GetAvatarHtml(site, store, uid.value, size, alt)
      case Some(html) => html
      case None => avatar
    else avatar
  }

  /** The outcome of `save_profile_fields`: whether it reached `update_user_meta`, and the store after. */
  datatype SaveResult = SaveResult(written: bool, store: UrlStore)

  /**
   `save_profile_fields`: without `edit_user` on the profile, or with an empty
   posted `wpadmin_avatar_url`, it returns `false` and writes nothing (so an
   empty submission never clears a URL); otherwise it stores `esc_url_raw` of
   the posted value for that user only.
   */
  function SaveProfileFields(site: Site, session: Session, store: UrlStore, userId: UserId, posted: Option<string>)
    : (r: SaveResult)
    ensures !r.written <==> !session.canEditUser(userId) || !Truthy(posted)
    ensures !r.written ==> r.store == store
    ensures r.written ==> userId in r.store && r.store[userId] == site.esc.urlRaw(posted.value)
    ensures forall u :: u != userId ==> (u in r.store <==> u in store)
    ensures forall u :: u != userId && u in r.store ==> r.store[u] == store[u]
  {
    if !session.canEditUser(userId) || !Truthy(posted) then SaveResult(false, store)
    else SaveResult(true, store[userId := site.esc.urlRaw(posted.value)])
  }

  /**
   The attributes of a `[wpadmin_avatar]` shortcode, each when given. `userId` is
   the user the meta store resolves the raw attribute to (it is passed on uncast);
   `size` is the `(int)` cast the tag prints.
   */
  datatype ShortcodeAtts = ShortcodeAtts(userId: Option<UserId>, size: Option<int>, alt: Option<string>)

  /** The user, size and alt text after `shortcode_atts` has filled in the defaults. */
  function ShortcodeUser(session: Session, atts: ShortcodeAtts): UserId {
    atts.userId.GetOr(session.currentUser)
  }

  /**
   `avatar_shortcode`: `get_avatar_html` for the given or default user, size
   and alt text, with `false` turned into "" rather than any fallback markup.
   */
  function AvatarShortcode(site: Site, session: Session, store: UrlStore, atts: ShortcodeAtts): (r: string)
    ensures var uid := ShortcodeUser(session, atts);
            r == "" <==> GetAvatarUrl(site, store, uid).None?
    ensures r != "" ==>
              Some(r) == GetAvatarHtml(site, store, ShortcodeUser(session, atts),
                                       atts.size.GetOr(DefaultSize), atts.alt.GetOr(DefaultAlt))
  {
    GetAvatarHtml(site, store, ShortcodeUser(session, atts), atts.size.GetOr(DefaultSize), atts.alt.GetOr(DefaultAlt))
      .GetOr("")
  }

  /**
   `can_edit_avatar` as written: the target is the current user, or the current
   user has `edit_user` on THEIR OWN id, or is a super admin. Outside the own
   profile, only the current user's capabilities on their own id are consulted.
   */
  function CanEditAvatar(session: Session, target: UserId): (r: bool)
    ensures target == session.currentUser ==> r
    ensures r && target != session.currentUser ==>
              session.canEditUser(session.currentUser) || session.isSuperAdmin(session.currentUser)
  {
    target == session.currentUser
    || session.canEditUser(session.currentUser)
    || session.isSuperAdmin(session.currentUser)
  }

  /** Every target other than the current user gets the same answer from `can_edit_avatar`. */
  lemma CanEditAvatarSameForOtherTargets(session: Session, t1: UserId, t2: UserId)
    requires t1 != session.currentUser && t2 != session.currentUser
    ensures CanEditAvatar(session, t1) == CanEditAvatar(session, t2)
  {
  }

  /**
   The capability tests in `can_edit_avatar` never look at the target: a user
   who may edit their own profile, or a super admin, passes for every profile.
   */
  lemma CanEditAvatarIgnoresTarget(session: Session, target: UserId)
    requires session.canEditUser(session.currentUser) || session.isSuperAdmin(session.currentUser)
    ensures CanEditAvatar(session, target)
  {
  }

  /** `can_edit_avatar` with `edit_user` checked on the target profile, as the save path does. */
  function CanEditAvatarOfTarget(session: Session, target: UserId): (r: bool)
    ensures r ==> target == session.currentUser || session.canEditUser(target) ||
                  session.isSuperAdmin(session.currentUser)
    ensures target == session.currentUser ==> r
    ensures session.canEditUser(target) || session.isSuperAdmin(session.currentUser) ==> r
  {
    target == session.currentUser
    || session.canEditUser(target)
    || session.isSuperAdmin(session.currentUser)
  }

  /** User 1 may edit only their own profile and is no super admin. */
  function SelfEditorSession(): Session {
    Session(1, true, false, u => u == 1, u => false, (nonce, action) => false)
  }

  /** The as-written check lets user 1 edit user 2's avatar; the corrected one does not. */
  lemma CanEditAvatarCounterexample()
    ensures CanEditAvatar(SelfEditorSession(), 2)
    ensures !CanEditAvatarOfTarget(SelfEditorSession(), 2)
  {
    var s := SelfEditorSession();
    assert s.canEditUser(1);
    assert !s.canEditUser(2) && !s.isSuperAdmin(1);
  }

  /**
   With the corrected check, a user whose `edit_user` covers exactly their own
   profile, and who is no super admin, may edit exactly their own avatar.
   */
  lemma SelfEditorsEditOnlyThemselves(session: Session, target: UserId)
    requires forall u :: session.canEditUser(u) <==> u == session.currentUser
    requires !session.isSuperAdmin(session.currentUser)
    ensures CanEditAvatarOfTarget(session, target) <==> target == session.currentUser
  {
    assert session.canEditUser(target) <==> target == session.currentUser;
  }

  /**
   A written save is what later reads see: the stored `esc_url_raw` of the
   posted value is the avatar URL exactly when it is non-empty and valid.
   */
  lemma SavedUrlIsRead(site: Site, session: Session, store: UrlStore, userId: UserId, posted: Option<string>)
    requires session.canEditUser(userId) && Truthy(posted)
    ensures var raw := site.esc.urlRaw(posted.value);
            GetAvatarUrl(site, SaveProfileFields(site, session, store, userId, posted).store, userId)
              == if !IsEmpty(raw) && site.isValidUrl(raw) then Some(raw) else None
  {
  }

  /** An empty submission leaves every user's avatar URL as it was. */
  lemma EmptySubmissionKeepsUrl(site: Site, session: Session, store: UrlStore, userId: UserId, posted: Option<string>,
                                uid: UserId)
    requires !Truthy(posted)
    ensures GetAvatarUrl(site, SaveProfileFields(site, session, store, userId, posted).store, uid)
         == GetAvatarUrl(site, store, uid)
  {
  }

  /**
   Saving a URL that survives `esc_url_raw` and validation, then rendering an
   identity of that user, prints the escaped URL as `src`.
   */
  lemma SavedUrlIsRendered(site: Site, session: Session, store: UrlStore, who: Identity, posted: Option<string>,
                           avatar: string, size: int, alt: string)
    requires IsUser(UserIdFromIdentifier(site.userByEmail, who))
    requires session.canEditUser(UserIdFromIdentifier(site.userByEmail, who).value) && Truthy(posted)
    requires !IsEmpty(site.esc.urlRaw(posted.value)) && site.isValidUrl(site.esc.urlRaw(posted.value))
    requires EscapesQuotes(site.esc)
    ensures var saved := SaveProfileFields(site, session, store, UserIdFromIdentifier(site.userByEmail, who).value, posted);
            ImgAttr(FilterAvatar(site, saved.store, avatar, who, size, alt), 5, "src")
              == Some(site.esc.url(site.esc.urlRaw(posted.value)))
  {
    var uid := UserIdFromIdentifier(site.userByEmail, who).value;
    var saved := SaveProfileFields(site, session, store, uid, posted);
    var raw := site.esc.urlRaw(posted.value);
    assert GetAvatarUrl(site, saved.store, uid) == Some(raw);
    var attrs := AvatarHtmlAttrs(site, raw, size, alt);
    assert Lookup(attrs, "src") == Some(site.esc.url(raw));
  }

  /** A save for one user leaves the avatar every other user's identities render to unchanged. */
  lemma SaveLeavesOthersAlone(site: Site, session: Session, store: UrlStore, userId: UserId, posted: Option<string>,
                              who: Identity, avatar: string, size: int, alt: string)
    requires UserIdFromIdentifier(site.userByEmail, who) != Some(userId)
    ensures FilterAvatar(site, SaveProfileFields(site, session, store, userId, posted).store, avatar, who, size, alt)
         == FilterAvatar(site, store, avatar, who, size, alt)
  {
    var uid := UserIdFromIdentifier(site.userByEmail, who);
    var saved := SaveProfileFields(site, session, store, userId, posted).store;
    if uid.Some? {
      assert StoredUrl(saved, uid.value) == StoredUrl(store, uid.value);
    }
  }

  /**
   The shortcode and the filter resolve the same avatar for a user id and
   differ only in the fallback: the tag for both when there is one, otherwise
   "" from the shortcode against `$avatar` from the filter.
   */
  lemma ShortcodeMatchesFilter(site: Site, session: Session, store: UrlStore, uid: UserId,
                               avatar: string, size: int, alt: string)
    requires uid != 0
    ensures var short := AvatarShortcode(site, session, store, ShortcodeAtts(Some(uid), Some(size), Some(alt)));
            var filtered := FilterAvatar(site, store, avatar, Numeric(uid), size, alt);
            if GetAvatarUrl(site, store, uid).Some? then short == filtered
            else short == "" && filtered == avatar
  {
  }
}
