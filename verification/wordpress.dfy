/**
 What the plugin sees of WordPress. The requester identity handed to the
 `get_avatar` filter is a closed datatype; every WordPress function the plugin
 calls (user lookup by e-mail, attachment URLs, display names, escaping, URL
 validation, capability and nonce checks) is an uninterpreted function held in
 `Site` or `Session`. The per-user meta store is a `map` kept by each variant.
 */
module WordPress {
  import opened Php
  import opened Html

  type UserId = int

  /**
   A property of a PHP object, as far as `isset`, `empty` and `(int)` see it:
   `Unset` is a missing or null property; `Set` records the `(int)` cast of its
   value and whether `empty()` is false for it.
   */
  datatype Prop = Unset | Set(asInt: int, nonEmpty: bool)

  /** PHP casts every value that `empty()` accepts (null, false, 0, "", "0", []) to 0. */
  predicate WellFormedProp(p: Prop) {
    p.Set? && !p.nonEmpty ==> p.asInt == 0
  }

  /**
   The `$id_or_email` argument of the `get_avatar` filter.
   `Numeric` is anything `is_numeric` accepts (an int, a float or a numeric
   string) and holds its `(int)` cast; `Str` is any other string (treated as an
   e-mail address); `Obj` is an object with its `user_id` and `ID` properties;
   `Other` is everything else (null, booleans, arrays).
   */
  datatype Identity =
    | Numeric(n: int)
    | Str(s: string)
    | Obj(userId: Prop, id: Prop)
    | Other

  predicate WellFormedIdentity(who: Identity) {
    who.Obj? ==> WellFormedProp(who.userId) && WellFormedProp(who.id)
  }

  /** The size argument of `wp_get_attachment_image_url`: a registered size name or `[w, h]`. */
  datatype ImageSize = Named(name: string) | Dimensions(width: int, height: int)

  /** `esc_attr`, `esc_url` and `esc_url_raw`. */
  datatype Escaper = Escaper(attr: string -> string, url: string -> string, urlRaw: string -> string)

  /** What `esc_attr` and `esc_url` promise for markup: their output never holds a double quote. */
  ghost predicate EscapesQuotes(esc: Escaper) {
    forall s :: QuoteFree(esc.attr(s)) && QuoteFree(esc.url(s))
  }

  /** WordPress's default avatar class `avatar avatar-{size} photo`, which both variants print. */
  function SizeClass(size: int): (c: string)
    ensures QuoteFree(c)
  {
    var n := IntToString(size);
    assert '"' !in n;
    "avatar avatar-" + n + " photo"
  }

  /**
   Site-wide read-only services:
   `get_user_by('email', ..)->ID`, `wp_get_attachment_image_url`,
   `get_the_author_meta('display_name', ..)`, `filter_var(.., FILTER_VALIDATE_URL)`
   and the escaping functions.
   */
  datatype Site = Site(
    userByEmail: string -> Option<UserId>,
    attachmentUrl: (int, ImageSize) -> Option<string>,
    displayName: UserId -> string,
    isValidUrl: string -> bool,
    esc: Escaper)

  /**
   The current request: the current user's id (0 when nobody is logged in),
   `is_user_logged_in()`, `current_user_can('upload_files')`,
   `current_user_can('edit_user', ..)`, `is_super_admin(..)` and
   `wp_verify_nonce(nonce, action)`.
   */
  datatype Session = Session(
    currentUser: UserId,
    loggedIn: bool,
    canUploadFiles: bool,
    canEditUser: UserId -> bool,
    isSuperAdmin: UserId -> bool,
    verifyNonce: (string, string) -> bool)
}
