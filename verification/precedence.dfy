/**
 How the two variants' identity rules compare. The attachment-id variant tests
 `isset` on an object's `user_id` and then falls back to `ID`; the URL variant
 tests `!empty` on `user_id` only. On every other shape they agree.
 */
module Precedence {
  import opened Php
  import opened WordPress
  import CustomUserAvatars
  import WpAdminAvatar

  /** An object that carries a non-zero `ID` but no `user_id`, such as a `WP_User`. */
  predicate IdOnlyObject(who: Identity) {
    who.Obj? && who.userId.Unset? && who.id.Set? && who.id.asInt != 0
  }

  /**
   The variants name the same user whenever the URL variant names one, and the
   attachment-id variant names a user the URL variant does not exactly for
   objects that carry only a non-zero `ID`.
   */
  lemma PrecedenceDiffersOnlyOnIdOnlyObjects(userByEmail: string -> Option<UserId>, who: Identity)
    requires WellFormedIdentity(who)
    ensures WpAdminAvatar.IsUser(WpAdminAvatar.UserIdFromIdentifier(userByEmail, who)) ==>
              WpAdminAvatar.UserIdFromIdentifier(userByEmail, who)
                == Some(CustomUserAvatars.ResolveUserId(userByEmail, who))
    ensures CustomUserAvatars.ResolveUserId(userByEmail, who) != 0 &&
            !WpAdminAvatar.IsUser(WpAdminAvatar.UserIdFromIdentifier(userByEmail, who))
            <==> IdOnlyObject(who)
  {
  }
}
