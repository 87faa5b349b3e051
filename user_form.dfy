/**
 * Rules of the user-management forms: when the password field is shown, the
 * validation of the reset-password form, the form defaults, and which row actions
 * a user's permission codes reveal. String lengths are counted in characters.
 */
module UserForm {
  import opened JsValues

  // ---------------------------------------------------------------- create / edit form

  /**
   * The password field is shown when the form has no truthy `id`, that is on create:
   * it is hidden only by an `id` that is present and is not 0, "", false or null.
   */
  predicate ShowPassword(values: Value)
    ensures !ShowPassword(values) ==>
      values.Obj? && "id" in values.fields && values.fields["id"] !in {Num(0), Str(""), Bool(false), Null}
  {
    !Truthy(Get(values, "id"))
  }

  /** A new user's form shows the field; editing a stored user (non-zero id) hides it. */
  lemma PasswordOnlyOnCreate(fields: map<string, Value>, id: int)
    requires "id" !in fields
    ensures ShowPassword(Obj(fields))
    ensures id != 0 ==> !ShowPassword(Obj(fields["id" := Num(id)]))
  {
  }

  /** The status dictionary; the numeric codes live in an enum outside this model. */
  datatype CommonStatus = Enable | Disable

  const DEFAULT_SEX := 1
  const DEFAULT_STATUS := Enable

  /** `z.number().default(d)`: undefined becomes `d`, a number is kept, anything else is rejected. */
  function NumberWithDefault(v: Option<Value>, d: int): (r: Option<int>)
    ensures v.None? ==> r == Some(d)
    ensures r.Some? <==> v.None? || v.value.Num?
    ensures v.Some? && v.value.Num? ==> r == Some(v.value.n)
  {
    match v
    case None => Some(d)
    case Some(Num(n)) => Some(n)
    case Some(_) => None
  }

  /** A form that leaves sex and status unset submits sex 1 and an enabled status. */
  lemma FormDefaults(sex: Option<Value>, status: Option<CommonStatus>)
    requires sex.None? && status.None?
    ensures NumberWithDefault(sex, DEFAULT_SEX) == Some(1)
    ensures status.GetOr(DEFAULT_STATUS) == Enable
  {
  }

  // ---------------------------------------------------------------- reset password

  const MIN_PASSWORD := 5
  const MAX_PASSWORD := 20

  /** The messages the reset form can show. */
  const NEW_PASSWORD_REQUIRED := "请输入新密码"
  const CONFIRM_PASSWORD_REQUIRED := "请输入确认密码"
  const TOO_SHORT := "密码长度不能少于 5 个字符"
  const TOO_LONG := "密码长度不能超过 20 个字符"
  const SAME_AS_OLD := "新旧密码不能相同"
  const CONFIRM_MISMATCH := "新密码和确认密码不一致"

  /** Length checks of `z.string().min(5).max(20)`: both are run and both may report. */
  function LengthIssues(s: string): (r: seq<string>)
    ensures r == [] <==> MIN_PASSWORD <= |s| <= MAX_PASSWORD
  {
    (if |s| < MIN_PASSWORD then [TOO_SHORT] else []) + (if |s| > MAX_PASSWORD then [TOO_LONG] else [])
  }

  /**
   * The new-password rule: a string of 5 to 20 characters different from the
   * `oldPassword` field. A value that is not a string fails the type check and
   * nothing else is reported; otherwise the refinement runs after the length checks.
   */
  function NewPasswordIssues(value: Option<Value>, oldPassword: Option<Value>): (r: seq<string>)
    ensures r == [] <==>
      value.Some? && value.value.Str? && MIN_PASSWORD <= |value.value.s| <= MAX_PASSWORD && value != oldPassword
    ensures (value.None? || !value.value.Str?) ==> r == [NEW_PASSWORD_REQUIRED]
    ensures value.Some? && value.value.Str? && value == oldPassword ==> SAME_AS_OLD in r
  {
    if value.None? || !value.value.Str? then [NEW_PASSWORD_REQUIRED]
    else LengthIssues(value.value.s) + (if value != oldPassword then [] else [SAME_AS_OLD])
  }

  /** The confirm rule: a string of 5 to 20 characters equal to the `newPassword` field. */
  function ConfirmPasswordIssues(value: Option<Value>, newPassword: Option<Value>): (r: seq<string>)
    ensures r == [] <==>
      value.Some? && value.value.Str? && MIN_PASSWORD <= |value.value.s| <= MAX_PASSWORD && value == newPassword
    ensures (value.None? || !value.value.Str?) ==> r == [CONFIRM_PASSWORD_REQUIRED]
  {
    if value.None? || !value.value.Str? then [CONFIRM_PASSWORD_REQUIRED]
    else LengthIssues(value.value.s) + (if value == newPassword then [] else [CONFIRM_MISMATCH])
  }

  /**
   * A reset form that passes both rules submits one password, of allowed length,
   * typed twice the same and different from the old one.
   */
  lemma AcceptedResetIsConsistent(newPassword: Option<Value>, confirm: Option<Value>, oldPassword: Option<Value>)
    requires NewPasswordIssues(newPassword, oldPassword) == []
    requires ConfirmPasswordIssues(confirm, newPassword) == []
    ensures confirm == newPassword && confirm != oldPassword
    ensures newPassword.Some? && newPassword.value.Str?
    ensures MIN_PASSWORD <= |newPassword.value.s| <= MAX_PASSWORD
  {
  }

  /** Reusing the old password is refused even when its length is fine. */
  lemma ReusedPasswordRefused(p: string)
    requires MIN_PASSWORD <= |p| <= MAX_PASSWORD
    ensures NewPasswordIssues(Some(Str(p)), Some(Str(p))) == [SAME_AS_OLD]
  {
  }

  // ---------------------------------------------------------------- row actions

  datatype UserAction = Edit | Delete | AssignRole | ResetPassword

  /** The permission code that reveals each action. */
  function RequiredCode(a: UserAction): string {
    match a
    case Edit => "system:user:update"
    case Delete => "system:user:delete"
    case AssignRole => "system:permission:assign-user-role"
    case ResetPassword => "system:user:update-password"
  }

  /** `hasAccessByCodes(codes)`: the user holds at least one of `codes`. */
  predicate HasAccessByCodes(codes: seq<string>, userCodes: set<string>) {
    exists c :: c in codes && c in userCodes
  }

  /** An option of the action column, kept when its `show` flag holds. */
  function Shown(a: UserAction, userCodes: set<string>): seq<UserAction> {
    if HasAccessByCodes([RequiredCode(a)], userCodes) then [a] else []
  }

  /** The actions shown on a row, in the column's order. */
  function VisibleActions(userCodes: set<string>): (r: seq<UserAction>)
    ensures forall a :: a in r <==> RequiredCode(a) in userCodes
    ensures forall i, j :: 0 <= i < j < |r| ==> r[i] != r[j]
  {
    assert forall a :: HasAccessByCodes([RequiredCode(a)], userCodes) <==> RequiredCode(a) in userCodes by {
      forall a ensures HasAccessByCodes([RequiredCode(a)], userCodes) <==> RequiredCode(a) in userCodes {
        assert RequiredCode(a) in [RequiredCode(a)];
      }
    }
    Shown(Edit, userCodes) + Shown(Delete, userCodes) + Shown(AssignRole, userCodes) + Shown(ResetPassword, userCodes)
  }

  /** Each action has its own code. */
  lemma CodesAreDistinct(a: UserAction, b: UserAction)
    requires RequiredCode(a) == RequiredCode(b)
    ensures a == b
  {
  }

  /** No two actions share a code, so holding one code reveals exactly one action. */
  lemma OneCodeOneAction(a: UserAction)
    ensures VisibleActions({RequiredCode(a)}) == [a]
  {
    var codes := {RequiredCode(a)};
    forall b
      ensures RequiredCode(b) in codes <==> b == a
    {
      if RequiredCode(b) in codes {
        CodesAreDistinct(b, a);
      }
    }
  }
}
