# WPAdmin Avatar — a Dafny model of avatar resolution

WPAdmin Avatar is a WordPress plugin that replaces a user's default avatar with
an uploaded image. The repository carries two alternative implementations,
modelled here as two separate modules:

- **`CustomUserAvatars`** (wpadmin-avatar.php, class `Custom_User_Avatars`).
  It stores a media-library attachment id under the user meta key
  `custom_avatar_id`. Its `get_avatar` filter turns the requester identity into
  a user id, reads the attachment id and asks the media library for a URL at
  `[size, size]`. It prints its own `<img>` tag, or returns the incoming
  default markup unchanged. The module also covers the profile save rule
  (no-op, write or delete) and the checks of the AJAX upload endpoint, which
  run in order and stop at the first failure.
- **`WpAdminAvatar`** (class-wpadmin-avatar.php, class `WPAdmin_Avatar`).
  It stores a raw URL under `wpadmin_avatar_url` and validates it on every
  read. It resolves identities in a different order and never looks at an
  object's `ID`. Besides its `get_avatar` filter it has a `[wpadmin_avatar]`
  shortcode that returns `""` where the filter would return the fallback
  markup.

Supporting modules:

- `Php` models `false`-or-value returns (`Option`), string falsiness
  (`IsEmpty`: only `""` and `"0"`), `absint`, and the decimal text PHP prints
  for an integer, with a parser and a round-trip lemma.
- `Html` models the `<img ... />` markup both variants print with `sprintf`.
  A tag is a list of `name="value"` attributes plus a verbatim tail, and a
  reader takes a printed tag apart again. The avatar contracts use this reader
  to say which value lands in which attribute.
- `WordPress` holds the requester identity as a closed datatype: `Numeric`,
  `Str`, `Obj(user_id, ID)` or `Other`. It also holds the WordPress services
  the plugin calls, as uninterpreted functions gathered in `Site` and
  `Session`.
- `Precedence` compares the identity rules of the two variants.

The filters are pure functions of the store, so neither of them can write it.
Each save is a function from the old store to the new one. Its contract says
which entry changes, and that every other user's entry stays the same.

Details of the printed markup and the save rules:

- wpadmin-avatar.php prints `height` before `width` (line 258), and with no
  `extra_attr` it leaves two spaces before `/>`. class-wpadmin-avatar.php
  prints `width` before `height` (line 114) and has no extra attributes.
- In wpadmin-avatar.php a fallback alt taken from the display name is not
  escaped (line 255).
- class-wpadmin-avatar.php never clears a stored URL on an empty submission
  (line 162), and never uses an object's `ID` (lines 205-218).

## Model

| member | source | states |
|---|---|---|
| `CustomUserAvatars.ResolveUserId` | wpadmin-avatar.php:214-234 | A numeric identity gives its `(int)` cast. A string gives the id of the user found by e-mail, or 0. On an object, a set `user_id` wins over `ID`, and with neither the result is 0. Anything else gives 0. |
| `CustomUserAvatars.StoredAttachmentId` | wpadmin-avatar.php:240-245 | A stored attachment id counts only when it is present and non-zero, and it is then the stored value. |
| `CustomUserAvatars.CustomAvatarUrl` | wpadmin-avatar.php:240-252 | A URL exists exactly when a truthy attachment id is stored and the media library returns a truthy URL for it at `[size, size]`. That URL is the one returned. |
| `CustomUserAvatars.GetCustomAvatar` | wpadmin-avatar.php:212-267 | The result is exactly `$avatar` when the user id is 0, when no attachment id is stored, or when the URL lookup misses. Otherwise the printed tag reads back as five attributes: `alt` is the escaped non-empty `$alt`, or else the raw display name. `src` is `esc_url` of the URL. `class` is the escaped `args.class`, or else `avatar avatar-{size} photo`. `height` and `width` are both `esc_attr(size)`. Then come a space and `extra_attr` verbatim. |
| `CustomUserAvatars.SaveUserAvatar` | wpadmin-avatar.php:145-163 | Without `edit_user` on the profile, or with no posted value, the store is unchanged. A non-zero post stores its positive `absint` for that user, and a zero post deletes the entry. No other user's entry changes. |
| `CustomUserAvatars.AjaxUploadUserAvatar` | wpadmin-avatar.php:168-199 | Each error occurs exactly when every earlier check passed and its own check failed. The order is nonce, then login with `upload_files`, then a positive attachment id, then a truthy thumbnail URL. Success returns that id with its thumbnail URL. |
| `CustomUserAvatars.AjaxReportsFirstFailure` | wpadmin-avatar.php:170-198 | The endpoint is checked against a separate definition of "the first failing check wins". It fails exactly when one of its four checks fails, and then with the error of the first check that fails. Otherwise it succeeds. |
| `CustomUserAvatars.SavedAvatarIsRendered` | wpadmin-avatar.php:145-267 | After saving a non-zero id for a user, any identity of that user renders with `src` equal to `esc_url` of the media library's URL for that id at `[size, size]`. |
| `CustomUserAvatars.ClearedAvatarFallsBack` | wpadmin-avatar.php:157-161 | After posting 0 for a user, every identity of that user renders exactly `$avatar`. |
| `CustomUserAvatars.SaveLeavesOthersAlone` | wpadmin-avatar.php:156-161 | A save for one user does not change what identities of any other user render. |
| `CustomUserAvatars.ExampleRender` | wpadmin-avatar.php:257-264 | Concrete case: user 7 is found by e-mail and has attachment 42. At size 150 with alt `Bob` the tag has exactly the attributes `alt="Bob"`, `src` set to the attachment URL, `class="avatar avatar-150 photo"`, `height="150"` and `width="150"`, followed by an empty extra. |
| `WpAdminAvatar.GetAvatarUrl` | class-wpadmin-avatar.php:95-99 | The stored URL is returned exactly when it is non-empty and passes URL validation. Otherwise the result is `false`. |
| `WpAdminAvatar.GetAvatarHtml` | class-wpadmin-avatar.php:109-123 | The result is `false` exactly when `get_avatar_url` is `false`. Otherwise it is a truthy tag that reads back as `src` = `esc_url(url)`, `class` = `avatar avatar-N photo`, `width` = N, `height` = N and `alt` = `esc_attr(alt)`, where N is `(int) size`. |
| `WpAdminAvatar.UserIdFromIdentifier` | class-wpadmin-avatar.php:203-219 | A numeric identity gives its cast. An object with a non-empty `user_id` gives that cast. A string gives the e-mail lookup. Any other object, including one with only `ID`, gives `false`, and so does anything else. |
| `WpAdminAvatar.FilterAvatar` | class-wpadmin-avatar.php:183-195 | The custom tag is returned when the identity gives a truthy user id that has a valid stored URL. Otherwise the result is `$avatar` unchanged. |
| `WpAdminAvatar.SaveProfileFields` | class-wpadmin-avatar.php:160-171 | Without `edit_user` or with an empty post, it returns `false` and the store is unchanged. Otherwise `esc_url_raw` of the post is stored for that user. No other user's entry changes. |
| `WpAdminAvatar.AvatarShortcode` | class-wpadmin-avatar.php:242-255 | The result is `""` exactly when the chosen user has no valid URL. Otherwise it is `get_avatar_html` for the given values or the defaults: the current user, 150, and the default alt text. |
| `WpAdminAvatar.CanEditAvatar` | class-wpadmin-avatar.php:146-152 | The current user may always edit their own avatar. For any other target, access is granted only through the current user's `edit_user` on their own id or super-admin status; the target itself is never consulted. |
| `WpAdminAvatar.CanEditAvatarSameForOtherTargets` | class-wpadmin-avatar.php:148-151 | Any two targets other than the current user get the same answer. |
| `WpAdminAvatar.CanEditAvatarIgnoresTarget` | class-wpadmin-avatar.php:148-151 | A current user with `edit_user` on their own id, or a super admin, passes `can_edit_avatar` for every target. |
| `WpAdminAvatar.CanEditAvatarCounterexample` | class-wpadmin-avatar.php:148-151 | Counterexample: user 1 may edit only profile 1. The check as written allows profile 2, and the corrected check does not. |
| `WpAdminAvatar.CanEditAvatarOfTarget` | class-wpadmin-avatar.php:146-152 | Corrected check: the target is always allowed for its own user. Any other target is allowed if and only if the current user has `edit_user` on the target or is a super admin. |
| `WpAdminAvatar.SelfEditorsEditOnlyThemselves` | class-wpadmin-avatar.php:148-151 | Under the corrected check, a user who may edit only their own profile may edit exactly their own avatar. |
| `WpAdminAvatar.SavedUrlIsRead` | class-wpadmin-avatar.php:160-171 | After a written save, the user's avatar URL is `esc_url_raw` of the post if that is non-empty and valid, and `false` otherwise. |
| `WpAdminAvatar.EmptySubmissionKeepsUrl` | class-wpadmin-avatar.php:162-164 | An empty submission leaves every user's avatar URL as it was. |
| `WpAdminAvatar.SavedUrlIsRendered` | class-wpadmin-avatar.php:160-195 | After saving a URL that survives escaping and validation, any identity of that user renders with `src` = `esc_url` of the saved URL. |
| `WpAdminAvatar.SaveLeavesOthersAlone` | class-wpadmin-avatar.php:166-170 | A save for one user does not change what identities of any other user render. |
| `WpAdminAvatar.ShortcodeMatchesFilter` | class-wpadmin-avatar.php:244-254 | For a non-zero user id, the shortcode and the filter give the same tag when a valid URL is stored. Otherwise the shortcode gives `""` and the filter gives `$avatar`. |
| `Precedence.PrecedenceDiffersOnlyOnIdOnlyObjects` | class-wpadmin-avatar.php:205-218 | When the URL variant names a user, the attachment-id variant names the same one (wpadmin-avatar.php:215-234). The attachment-id variant names a user that the URL variant does not exactly for objects carrying only a non-zero `ID`. |
| `Html.ParseRenderImg` | wpadmin-avatar.php:257-264 | A tag printed from attributes whose values hold no `"` and whose names hold no `=` reads back as exactly those attributes followed by the tail. |
| `Php.IntToStringRoundTrip` | class-wpadmin-avatar.php:113-118 | Reading back the decimal text printed for an integer gives that integer, so a printed size names the size. |

## Left out

- Profile form rendering is left out because it only emits HTML. This covers `add_avatar_upload_field` (wpadmin-avatar.php:90-138), `render_avatar_form`, templates/avatar-form.php and `move_avatar_field`.
- assets/js/wpadmin-avatar.js is left out because it is browser-side UI. Its `get_default_avatar` AJAX action has no server handler.
- Asset loading (`enqueue_scripts`, `enqueue_admin_assets`) is left out as WordPress plumbing. So are hook and shortcode registration, the singleton `get_instance` and `custom_user_avatars_init`.
- WordPress functions are uninterpreted parameters and their internals are not modelled. This covers `get_user_by`, `wp_get_attachment_image_url`, `get_the_author_meta`, the escapers, `filter_var` URL validation, nonce verification and capability checks.
- The meta store is a `map` per meta key. `get_metadata`'s own `absint` of the user id and the string serialisation of meta values are not modelled. The attachment-id variant's entries are integers. A non-numeric shortcode `user_id`, which the URL variant passes to the meta read uncast, reads nothing; the model takes the id the meta read resolves it to.
- PHP type juggling is pre-classified in the input types rather than modelled. `is_numeric`, `(int)` on strings, and `isset` and `empty` on object properties are covered this way, as are the POSTed values and the shortcode's `size`. Each arrives already cast.
- The return value of `update_user_meta` (meta id, `true`, or `false` for an unchanged value) is not modelled. `SaveResult.written` only records that the write was issued.
- The translated error texts of the AJAX replies are not modelled; each error is a tag. `wp_send_json_*` ending the request is modelled as returning that reply.
- The unused `$default` argument of both filters is not modelled.
- `CustomUserAvatars.GetCustomAvatar`: the tag's contents are stated only when no printed value holds a `"`. The escapers promise this, but a display-name alt does not, and then the tag cannot be read back attribute by attribute.
- `WpAdminAvatar.GetAvatarHtml`: the tag's contents are stated only when the escapers leave no `"` in their output.

## Findings

| source | as written | input that shows it | evidently intended | confidence | as-written member | corrected member |
|---|---|---|---|---|---|---|
| class-wpadmin-avatar.php:150 | `can_edit_avatar($user_id)` tests `current_user_can('edit_user', $current_user->ID)`, which is the current user's own id and ignores the target | current user 1 may edit only profile 1 and is no super admin; target 2 passes | test `edit_user` on the target `$user_id`, as `save_profile_fields` does | medium, not executed | `WpAdminAvatar.CanEditAvatarCounterexample` | `WpAdminAvatar.CanEditAvatarOfTarget` |

`can_edit_avatar` is only called from the profile form renderer, which is not
part of this model. No other member of the model depends on either version.
