/**
 * The form and search schemas of frontend/src/lib/validation.ts.
 *
 * A schema maps the values of a form to the outcome of `safeParse` followed by
 * `error.flatten()`: either the values themselves (no schema here transforms
 * anything) or, per field, the messages of every check that field failed, in
 * the order the checks are declared, plus the form-level messages.
 */
module Validation {
  import opened Wrappers

  datatype Parsed<T> = Valid(data: T) | Invalid(fieldErrors: map<string, seq<string>>, formErrors: seq<string>) {

    /** The messages reported for one field: none when the values were accepted. */
    function Issues(field: string): seq<string> {
      if Invalid? && field in fieldErrors then fieldErrors[field] else []
    }

    /** Only fields that failed a check appear, and a rejection always says why. */
    predicate WellFormed() {
      Invalid? ==>
        (forall field :: field in fieldErrors ==> fieldErrors[field] != []) &&
        (fieldErrors.Keys != {} || formErrors != [])
    }
  }

  const UsernameRequired := "ユーザー名を入力してください"
  const PasswordRequired := "パスワードを入力してください"
  const UsernameTooShort := "ユーザー名は3文字以上で入力してください"
  const UsernameTooLong := "ユーザー名は50文字以内で入力してください"
  const EmailRequired := "メールアドレスを入力してください"
  const EmailInvalid := "有効なメールアドレスを入力してください"
  const GroupNameRequired := "グループ名を入力してください"
  const DescriptionTooLong := "説明は1000文字以内で入力してください"
  const SearchModeRequired := "全文一致かあいまい検索のどちらかを選択してください"

  // The string checks. Zod runs every check of a string field and keeps each
  // failing check's message, so a field's issues are the concatenation.

  function MinLength(s: string, n: nat, message: string): seq<string> {
    if |s| < n then [message] else []
  }

  function MaxLength(s: string, n: nat, message: string): seq<string> {
    if |s| > n then [message] else []
  }

  function Format(s: string, accepts: string -> bool, message: string): seq<string> {
    if accepts(s) then [] else [message]
  }

  /** `.optional()`: an absent value passes, a present one is checked. */
  function Optional(v: Option<string>, check: string -> seq<string>): (r: seq<string>)
    ensures v.None? ==> r == []
    ensures v.Some? ==> r == check(v.value)
  {
    match v
    case None => []
    case Some(s) => check(s)
  }

  /** `first.or(second)`: the first alternative that passes wins; otherwise the first one's issues stand. */
  function Or(first: seq<string>, secondPasses: bool): (r: seq<string>)
    ensures r == [] <==> first == [] || secondPasses
    ensures r != [] ==> r == first
  {
    if first == [] || secondPasses then [] else first
  }

  /** Records a field in the flattened errors only when it has issues. */
  function WithField(m: map<string, seq<string>>, field: string, issues: seq<string>): (r: map<string, seq<string>>)
    ensures r.Keys == if issues == [] then m.Keys else m.Keys + {field}
  {
    if issues == [] then m else m[field := issues]
  }

  /** Rejects exactly when some field has issues; accepted values come back unchanged. */
  function Decide<T>(values: T, fieldErrors: map<string, seq<string>>): Parsed<T> {
    if fieldErrors.Keys == {} then Valid(values) else Invalid(fieldErrors, [])
  }

  // loginSchema

  datatype LoginForm = LoginForm(username: string, password: string)

  function LoginSchema(v: LoginForm): (r: Parsed<LoginForm>)
    ensures r.Valid? <==> v.username != "" && v.password != ""
    ensures r.Valid? ==> r.data == v
    ensures r.WellFormed()
    ensures r.Invalid? ==> r.formErrors == [] && r.fieldErrors.Keys <= {"username", "password"}
    ensures r.Issues("username") == if v.username == "" then [UsernameRequired] else []
    ensures r.Issues("password") == if v.password == "" then [PasswordRequired] else []
  {
    var errors := WithField(WithField(map[],
      "username", MinLength(v.username, 1, UsernameRequired)),
      "password", MinLength(v.password, 1, PasswordRequired));
    Decide(v, errors)
  }

  // registerSchema

  datatype RegisterForm = RegisterForm(username: string, email: string, password: string)

  function RegisterSchema(v: RegisterForm, isEmail: string -> bool): (r: Parsed<RegisterForm>)
    ensures r.Valid? <==>
      3 <= |v.username| <= 50 && v.email != "" && isEmail(v.email) && v.password != ""
    ensures r.Valid? ==> r.data == v
    ensures r.WellFormed()
    ensures r.Invalid? ==> r.formErrors == [] && r.fieldErrors.Keys <= {"username", "email", "password"}
    ensures r.Issues("username") ==
      if |v.username| < 3 then [UsernameTooShort]
      else if |v.username| > 50 then [UsernameTooLong]
      else []
    // the non-empty rule is declared before the format rule, so it is reported first
    ensures v.email == "" ==> |r.Issues("email")| > 0 && r.Issues("email")[0] == EmailRequired
    ensures v.email != "" ==> r.Issues("email") == if isEmail(v.email) then [] else [EmailInvalid]
    ensures r.Issues("password") == if v.password == "" then [PasswordRequired] else []
  {
    var errors := WithField(WithField(WithField(map[],
      "username", MinLength(v.username, 3, UsernameTooShort) + MaxLength(v.username, 50, UsernameTooLong)),
      "email", MinLength(v.email, 1, EmailRequired) + Format(v.email, isEmail, EmailInvalid)),
      "password", MinLength(v.password, 1, PasswordRequired));
    Decide(v, errors)
  }

  // oshiGroupFormSchema

  datatype GroupForm = GroupForm(groupName: string, company: Option<string>, description: Option<string>)

  function GroupFormSchema(v: GroupForm): (r: Parsed<GroupForm>)
    ensures r.Valid? <==>
      v.groupName != "" &&
      (v.description == None || v.description == Some("") || |v.description.value| <= 1000)
    ensures r.Valid? ==> r.data == v
    ensures r.WellFormed()
    ensures r.Invalid? ==> r.formErrors == [] && r.fieldErrors.Keys <= {"groupName", "description"}
    ensures r.Issues("groupName") == if v.groupName == "" then [GroupNameRequired] else []
    ensures r.Issues("company") == []
    ensures r.Issues("description") ==
      if v.description.Some? && |v.description.value| > 1000 then [DescriptionTooLong] else []
  {
    var errors := WithField(WithField(map[],
      "groupName", MinLength(v.groupName, 1, GroupNameRequired)),
      "description", Or(Optional(v.description, s => MaxLength(s, 1000, DescriptionTooLong)),
                        v.description == Some("")));
    Decide(v, errors)
  }

  // searchModeSchema

  datatype SearchMode = SearchMode(full: bool, fuzzy: bool)

  function SearchModeSchema(v: SearchMode): (r: Parsed<SearchMode>)
    ensures r.Valid? <==> v.full != v.fuzzy
    ensures r.Valid? ==> r.data == v
    ensures r.WellFormed()
    ensures r.Invalid? ==> r.fieldErrors.Keys == {} && r.formErrors == [SearchModeRequired]
  {
    if (v.full && !v.fuzzy) || (!v.full && v.fuzzy) then Valid(v)
    else Invalid(map[], [SearchModeRequired])
  }

  /** No schema transforms its input: accepted data parses again to itself. */
  lemma ReparseIsStable(login: LoginForm, register: RegisterForm, isEmail: string -> bool,
                        group: GroupForm, mode: SearchMode)
    ensures LoginSchema(login).Valid? ==> LoginSchema(LoginSchema(login).data) == Valid(login)
    ensures RegisterSchema(register, isEmail).Valid? ==>
      RegisterSchema(RegisterSchema(register, isEmail).data, isEmail) == Valid(register)
    ensures GroupFormSchema(group).Valid? ==> GroupFormSchema(GroupFormSchema(group).data) == Valid(group)
    ensures SearchModeSchema(mode).Valid? ==> SearchModeSchema(SearchModeSchema(mode).data) == Valid(mode)
  {
  }

  /** A description of 1001 characters is the shortest one rejected. */
  lemma DescriptionBoundary(name: string, d: string)
    requires name != "" && |d| == 1001
    ensures GroupFormSchema(GroupForm(name, None, Some(d))).Issues("description") == [DescriptionTooLong]
    ensures GroupFormSchema(GroupForm(name, None, Some(d[..1000]))) == Valid(GroupForm(name, None, Some(d[..1000])))
  {
  }
}
