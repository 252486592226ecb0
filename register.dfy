/** Account registration (src/app/register/page.tsx): the form's own checks (name
    and password lengths, the role choice, and the provider-only shop details),
    the role the page opens with, and the request body it posts. */
module Register {
  import opened Types
  import opened Json
  import opened Platform
  import Http

  /** The form's values; the three shop fields are optional inputs. */
  datatype Form = Form(name: string, email: string, password: string, role: Role,
                       shopName: Option<string>, address: Option<string>, cuisine: Option<string>)

  /** `!!value`: present and not empty. */
  predicate Given(o: Option<string>) {
    o.Some? && o.value != ""
  }

  /** The schema's `refine`: a provider must give a shop name, an address and a cuisine. */
  predicate Refine(f: Form): (b: bool)
    ensures f.role != Provider ==> b
    ensures b && f.role == Provider ==> f.shopName.Some? && f.address.Some? && f.cuisine.Some?
  {
    f.role == Provider ==> Given(f.shopName) && Given(f.address) && Given(f.cuisine)
  }

  /** The field rules the repository sets: `min(2)` on the name, `min(6)` on the
      password, and a role that is `CUSTOMER` or `PROVIDER`. */
  predicate FieldsValid(f: Form) {
    |f.name| >= 2 && |f.password| >= 6 && (f.role == Customer || f.role == Provider)
  }

  /** Whether `handleSubmit` hands the values to `onSubmit`. */
  predicate Accepts(f: Form) {
    FieldsValid(f) && Refine(f)
  }

  lemma CustomerAlwaysRefines(f: Form)
    requires f.role == Customer
    ensures Refine(f)
  {
  }

  /** A provider form is accepted exactly when its fields are valid and all three
      shop details are given. */
  lemma ProviderNeedsShop(f: Form)
    requires f.role == Provider
    ensures Accepts(f) <==> (|f.name| >= 2 && |f.password| >= 6
      && Given(f.shopName) && Given(f.address) && Given(f.cuisine))
  {
  }

  /** Nobody registers as an administrator from this page. */
  lemma NoAdminSignup(f: Form)
    requires f.role == Admin
    ensures !Accepts(f)
  {
  }

  /** `searchParams?.get("role") === "PROVIDER" ? "PROVIDER" : "CUSTOMER"`; `None`
      is a missing parameter or no `window` at all. */
  function InitialRole(roleParam: Option<string>): (r: Role)
    ensures r == Provider <==> roleParam == Some("PROVIDER")
    ensures r == Customer <==> roleParam != Some("PROVIDER")
  {
    if roleParam == Some("PROVIDER") then Provider else Customer
  }

  // ---- the role switch ----

  /** The page's `selectedRole` and `isLoading` beside the form's values. */
  datatype PageState = PageState(selectedRole: Role, isLoading: bool, values: Form)

  /** The role buttons and the form's `role` show the same choice. */
  predicate InSync(s: PageState) {
    s.selectedRole == s.values.role
  }

  /** The page as it opens: both start at the initial role, and nothing is loading. */
  function Opened(roleParam: Option<string>, values: Form): (s: PageState)
    ensures InSync(s) && s.selectedRole == InitialRole(roleParam) && !s.isLoading
  {
    var r := InitialRole(roleParam);
    PageState(r, false, values.(role := r))
  }

  /** `handleRoleChange(role)`: `setSelectedRole(role)` then `setValue("role", role)`. */
  function HandleRoleChange(s: PageState, role: Role): (r: PageState)
    ensures InSync(r) && r.selectedRole == role
  {
    s.(selectedRole := role, values := s.values.(role := role))
  }

  /** The switch sets both to the chosen role, and leaves every other field alone. */
  lemma RoleChangeSyncs(s: PageState, role: Role)
    ensures InSync(HandleRoleChange(s, role)) && HandleRoleChange(s, role).selectedRole == role
    ensures HandleRoleChange(s, role).values.(role := s.values.role) == s.values
    ensures HandleRoleChange(s, role).isLoading == s.isLoading
  {
  }

  // ---- the request body ----

  function ShopFields(f: Form): map<string, Json> {
    PutStr("shopName", f.shopName) + PutStr("address", f.address) + PutStr("cuisine", f.cuisine)
  }

  /** The body posted to `/auth/register`: the four account fields, and for a
      provider the shop fields both flat and under `providerProfile`. */
  function Payload(f: Form): (m: map<string, Json>)
    ensures "name" in m && "email" in m && "password" in m && "role" in m
    ensures m["role"] == JStr(RoleName(f.role))
    ensures "providerProfile" in m <==> f.role == Provider
  {
    map["name" := JStr(f.name), "email" := JStr(f.email), "password" := JStr(f.password),
        "role" := JStr(RoleName(f.role))]
    + (if f.role == Provider then ShopFields(f)["providerProfile" := JObj(ShopFields(f))] else map[])
  }

  /** A customer's body carries nothing but the account fields. */
  lemma CustomerPayload(f: Form)
    requires f.role == Customer
    ensures Payload(f).Keys == {"name", "email", "password", "role"}
    ensures Payload(f)["role"] == JStr("CUSTOMER")
  {
  }

  /** An accepted provider's body gives each shop detail twice, with the same value. */
  lemma ProviderPayload(f: Form)
    requires f.role == Provider && Accepts(f)
    ensures Payload(f).Keys == {"name", "email", "password", "role", "shopName", "address", "cuisine", "providerProfile"}
    ensures Payload(f)["shopName"] == JStr(f.shopName.value)
    ensures Payload(f)["address"] == JStr(f.address.value)
    ensures Payload(f)["cuisine"] == JStr(f.cuisine.value)
    ensures Payload(f)["providerProfile"] == JObj(map["shopName" := JStr(f.shopName.value),
      "address" := JStr(f.address.value), "cuisine" := JStr(f.cuisine.value)])
  {
    assert ShopFields(f) == map["shopName" := JStr(f.shopName.value),
      "address" := JStr(f.address.value), "cuisine" := JStr(f.cuisine.value)];
  }

  const RegisterPath: string := "/auth/register"
  const CreatedText: string := "Account created successfully! Please login."
  const RegisterFailedText: string := "Registration failed"

  /** Submitting the form's values: a rejected form posts nothing and leaves the page
      as it was; an accepted one is posted with `isLoading` raised, and on success the
      visitor is told to sign in and sent to `/login`. Either way the `finally`
      lowers `isLoading` again. */
  method Submit<T>(b: Browser, s: PageState, outcome: ApiOutcome<T>) returns (posted: Option<map<string, Json>>, r: PageState)
    modifies b
    ensures r == (if Accepts(s.values) then s.(isLoading := false) else s)
    ensures posted == (if Accepts(s.values) then Some(Payload(s.values)) else None)
    ensures !Accepts(s.values) ==> b.storage == old(b.storage) && b.events == old(b.events)
    ensures Accepts(s.values) ==> (b.storage == Http.SettledStorage(old(b.storage), old(b.pathname), outcome)
      && b.events == old(b.events)
         + [Request("POST", RegisterPath, Http.BearerHeader(old(b.storage)))]
         + Http.SettledEvents(old(b.pathname), outcome)
         + (if outcome.Ok? then [Toast(ToastSuccess, CreatedText), Navigate("/login")]
            else [Toast(ToastError, Http.MessageOr(outcome, RegisterFailedText))]))
    ensures b.pathname == old(b.pathname)
  {
    var f := s.values;
    if !Accepts(f) {
      return None, s;
    }
    r := s.(isLoading := true);
    posted := Some(Payload(f));
    Http.Call(b, "POST", RegisterPath, outcome);
    if outcome.Ok? {
      b.Emit(Toast(ToastSuccess, CreatedText));
      b.Emit(Navigate("/login"));
    } else {
      b.Emit(Toast(ToastError, Http.MessageOr(outcome, RegisterFailedText)));
    }
    r := r.(isLoading := false);
  }
}
