/** JSON documents and the two documents the front end keeps in browser storage:
    the cart (`JSON.stringify(cart)`) and the session user (`JSON.stringify(user)`).
    A document is kept as the value tree its text denotes; object fields are a map,
    and an `undefined` field is absent, as `JSON.stringify` omits it. */
module Json {
  import opened Types

  datatype Json =
    | JNull
    | JBool(b: bool)
    | JNum(n: real)
    | JStr(s: string)
    | JArr(items: seq<Json>)
    | JObj(fields: map<string, Json>)

  // ---- field helpers ----

  function Str(f: map<string, Json>, k: string): Option<string> {
    if k in f && f[k].JStr? then Some(f[k].s) else None
  }

  function Bool(f: map<string, Json>, k: string): Option<bool> {
    if k in f && f[k].JBool? then Some(f[k].b) else None
  }

  function Num(f: map<string, Json>, k: string): Option<real> {
    if k in f && f[k].JNum? then Some(f[k].n) else None
  }

  /** A JSON number read back as a whole number, when it is one. */
  function Int(f: map<string, Json>, k: string): Option<int> {
    if k in f && f[k].JNum? && f[k].n.Floor as real == f[k].n then Some(f[k].n.Floor) else None
  }

  /** An optional string field: absent reads as `undefined`, anything but a string fails. */
  function OptStr(f: map<string, Json>, k: string): Option<Option<string>> {
    if k !in f then Some(None) else if f[k].JStr? then Some(Some(f[k].s)) else None
  }

  function OptNum(f: map<string, Json>, k: string): Option<Option<real>> {
    if k !in f then Some(None) else if f[k].JNum? then Some(Some(f[k].n)) else None
  }

  function PutStr(k: string, o: Option<string>): map<string, Json> {
    if o.Some? then map[k := JStr(o.value)] else map[]
  }

  function PutNum(k: string, o: Option<real>): map<string, Json> {
    if o.Some? then map[k := JNum(o.value)] else map[]
  }

  // ---- meals and cart lines ----

  function MealFields(m: Meal): map<string, Json> {
    map["id" := JStr(m.id), "title" := JStr(m.title), "price" := JNum(m.price as real),
        "categoryId" := JStr(m.categoryId), "providerId" := JStr(m.providerId),
        "isAvailable" := JBool(m.isAvailable)]
    + PutStr("description", m.description)
    + PutStr("image", m.image)
    + PutNum("averageRating", m.averageRating)
  }

  function MealFromFields(f: map<string, Json>): Option<Meal> {
    var id, title, price := Str(f, "id"), Str(f, "title"), Int(f, "price");
    var cat, prov, avail := Str(f, "categoryId"), Str(f, "providerId"), Bool(f, "isAvailable");
    var desc, img, avg := OptStr(f, "description"), OptStr(f, "image"), OptNum(f, "averageRating");
    if id.Some? && title.Some? && price.Some? && cat.Some? && prov.Some? && avail.Some?
       && desc.Some? && img.Some? && avg.Some?
    then Some(Meal(id.value, title.value, desc.value, price.value, img.value,
                   cat.value, prov.value, avail.value, avg.value))
    else None
  }

  /** `{ ...meal, quantity }` as a JSON object. */
  function LineToJson(l: CartLine): Json {
    JObj(MealFields(l.meal)["quantity" := JNum(l.quantity as real)])
  }

  function LineFromJson(j: Json): Option<CartLine> {
    if !j.JObj? then None
    else
      var meal, q := MealFromFields(j.fields), Int(j.fields, "quantity");
      if meal.Some? && q.Some? then Some(CartLine(meal.value, q.value)) else None
  }

  function LinesToJson(ls: seq<CartLine>): seq<Json> {
    if ls == [] then [] else [LineToJson(ls[0])] + LinesToJson(ls[1..])
  }

  function LinesFromJson(js: seq<Json>): Option<seq<CartLine>> {
    if js == [] then Some([])
    else
      var head, tail := LineFromJson(js[0]), LinesFromJson(js[1..]);
      if head.Some? && tail.Some? then Some([head.value] + tail.value) else None
  }

  /** `JSON.stringify(cart)`. */
  function CartToJson(ls: seq<CartLine>): Json {
    JArr(LinesToJson(ls))
  }

  /** `JSON.parse(storedCart)` read as a list of cart lines; `None` for any other document. */
  function CartFromJson(j: Json): Option<seq<CartLine>> {
    if j.JArr? then LinesFromJson(j.items) else None
  }

  /** Two objects that agree on key `k`. */
  predicate SameAt(f: map<string, Json>, g: map<string, Json>, k: string) {
    (k in f <==> k in g) && (k in f ==> f[k] == g[k])
  }

  lemma UpdateKeepsOthers(f: map<string, Json>, k: string, v: Json, other: string)
    requires other != k
    ensures SameAt(f, f[k := v], other)
  {
  }

  /** Decoding a meal reads only the meal's own keys. */
  lemma MealFromFieldsLocal(f: map<string, Json>, g: map<string, Json>)
    requires SameAt(f, g, "id") && SameAt(f, g, "title") && SameAt(f, g, "price")
    requires SameAt(f, g, "categoryId") && SameAt(f, g, "providerId") && SameAt(f, g, "isAvailable")
    requires SameAt(f, g, "description") && SameAt(f, g, "image") && SameAt(f, g, "averageRating")
    ensures MealFromFields(f) == MealFromFields(g)
  {
  }

  lemma MealRequiredRead(m: Meal)
    ensures var f := MealFields(m);
      && Str(f, "id") == Some(m.id) && Str(f, "title") == Some(m.title)
      && Int(f, "price") == Some(m.price)
  {
  }

  lemma MealOwnerRead(m: Meal)
    ensures var f := MealFields(m);
      && Str(f, "categoryId") == Some(m.categoryId) && Str(f, "providerId") == Some(m.providerId)
      && Bool(f, "isAvailable") == Some(m.isAvailable)
  {
  }

  lemma MealOptionalRead(m: Meal)
    ensures var f := MealFields(m);
      && OptStr(f, "description") == Some(m.description) && OptStr(f, "image") == Some(m.image)
      && OptNum(f, "averageRating") == Some(m.averageRating)
  {
  }

  lemma MealRoundTrip(m: Meal)
    ensures MealFromFields(MealFields(m)) == Some(m)
  {
    MealRequiredRead(m);
    MealOwnerRead(m);
    MealOptionalRead(m);
  }

  lemma LineRoundTrip(l: CartLine)
    ensures LineFromJson(LineToJson(l)) == Some(l)
  {
    var f := MealFields(l.meal);
    var v := JNum(l.quantity as real);
    UpdateKeepsOthers(f, "quantity", v, "id");
    UpdateKeepsOthers(f, "quantity", v, "title");
    UpdateKeepsOthers(f, "quantity", v, "price");
    UpdateKeepsOthers(f, "quantity", v, "categoryId");
    UpdateKeepsOthers(f, "quantity", v, "providerId");
    UpdateKeepsOthers(f, "quantity", v, "isAvailable");
    UpdateKeepsOthers(f, "quantity", v, "description");
    UpdateKeepsOthers(f, "quantity", v, "image");
    UpdateKeepsOthers(f, "quantity", v, "averageRating");
    MealFromFieldsLocal(f, f["quantity" := v]);
    MealRoundTrip(l.meal);
  }

  /** Reading back a stored cart gives exactly the lines that were stored. */
  lemma {:induction false} CartRoundTrip(ls: seq<CartLine>)
    ensures CartFromJson(CartToJson(ls)) == Some(ls)
  {
    LinesRoundTrip(ls);
  }

  lemma {:induction false} LinesRoundTrip(ls: seq<CartLine>)
    ensures LinesFromJson(LinesToJson(ls)) == Some(ls)
  {
    if ls != [] {
      LinesRoundTrip(ls[1..]);
      LineRoundTrip(ls[0]);
      var js := LinesToJson(ls);
      assert js[0] == LineToJson(ls[0]) && js[1..] == LinesToJson(ls[1..]);
      assert [ls[0]] + ls[1..] == ls;
    }
  }

  // ---- session users ----

  function RoleName(r: Role): string {
    match r
    case Customer => "CUSTOMER"
    case Provider => "PROVIDER"
    case Admin => "ADMIN"
  }

  function RoleFromName(s: string): (r: Option<Role>)
    ensures r.Some? ==> RoleName(r.value) == s
  {
    if s == "CUSTOMER" then Some(Customer)
    else if s == "PROVIDER" then Some(Provider)
    else if s == "ADMIN" then Some(Admin)
    else None
  }

  function ProfileToJson(p: ProviderProfile): Json {
    JObj(map["id" := JStr(p.id), "userId" := JStr(p.userId), "shopName" := JStr(p.shopName),
             "address" := JStr(p.address), "rating" := JNum(p.rating)]
         + PutStr("cuisine", p.cuisine))
  }

  function ProfileFromJson(j: Json): Option<ProviderProfile> {
    if !j.JObj? then None
    else
      var f := j.fields;
      var id, uid, shop, addr := Str(f, "id"), Str(f, "userId"), Str(f, "shopName"), Str(f, "address");
      var cuisine, rating := OptStr(f, "cuisine"), Num(f, "rating");
      if id.Some? && uid.Some? && shop.Some? && addr.Some? && cuisine.Some? && rating.Some?
      then Some(ProviderProfile(id.value, uid.value, shop.value, addr.value, cuisine.value, rating.value))
      else None
  }

  /** `JSON.stringify(user)`. */
  function UserToJson(u: User): Json {
    JObj(map["id" := JStr(u.id), "name" := JStr(u.name), "email" := JStr(u.email),
             "role" := JStr(RoleName(u.role)), "isActive" := JBool(u.isActive)]
         + (if u.providerProfile.Some? then map["providerProfile" := ProfileToJson(u.providerProfile.value)]
            else map[]))
  }

  /** `JSON.parse(storedUser)` read as a user; `None` for any other document. */
  function UserFromJson(j: Json): Option<User> {
    if !j.JObj? then None
    else
      var f := j.fields;
      var id, name, email, role := Str(f, "id"), Str(f, "name"), Str(f, "email"), Str(f, "role");
      var active := Bool(f, "isActive");
      var profile: Option<Option<ProviderProfile>> :=
        if "providerProfile" !in f then Some(None)
        else
          var p := ProfileFromJson(f["providerProfile"]);
          if p.Some? then Some(Some(p.value)) else None;
      if id.Some? && name.Some? && email.Some? && role.Some? && active.Some? && profile.Some?
         && RoleFromName(role.value).Some?
      then Some(User(id.value, name.value, email.value, RoleFromName(role.value).value,
                     active.value, profile.value))
      else None
  }

  lemma RoleRoundTrip(r: Role)
    ensures RoleFromName(RoleName(r)) == Some(r)
  {
  }

  lemma ProfileRoundTrip(p: ProviderProfile)
    ensures ProfileFromJson(ProfileToJson(p)) == Some(p)
  {
    var f := ProfileToJson(p).fields;
    assert Str(f, "shopName") == Some(p.shopName);
    assert OptStr(f, "cuisine") == Some(p.cuisine);
  }

  /** Reading back a stored user gives exactly the user that was stored. */
  lemma UserRoundTrip(u: User)
    ensures UserFromJson(UserToJson(u)) == Some(u)
  {
    UserFieldsRead(u);
    RoleRoundTrip(u.role);
    if u.providerProfile.Some? {
      ProfileRoundTrip(u.providerProfile.value);
    }
  }

  lemma UserFieldsRead(u: User)
    ensures var f := UserToJson(u).fields;
      && Str(f, "id") == Some(u.id) && Str(f, "name") == Some(u.name) && Str(f, "email") == Some(u.email)
      && Str(f, "role") == Some(RoleName(u.role)) && Bool(f, "isActive") == Some(u.isActive)
      && ("providerProfile" in f <==> u.providerProfile.Some?)
      && (u.providerProfile.Some? ==> f["providerProfile"] == ProfileToJson(u.providerProfile.value))
  {
  }
}
