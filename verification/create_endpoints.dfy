/** The six create handlers (POST /api/customers, /api/users, /api/categories,
    /api/products, /api/promotions, /api/services). Each checks the caller, then its
    required fields by JavaScript truthiness, then (where the column is unique) looks the
    key up, and finally inserts one row with the defaults of its `x || default` fields.
    Each is a pure function giving the row to insert or the error, and a method that
    performs the guards and the insert on the store. */
module CreateEndpoints {
  import opened Wrappers
  import opened Seqs
  import opened Schema
  import opened Database
  import opened AuthUtils

  const DefaultMinStock: int := 5
  const DefaultRole: string := "EMPLOYEE"

  // ---------------------------------------------------------------- customers

  datatype CustomerBody = CustomerBody(
    firstName: Option<string>, lastName: Option<string>, phone: Option<string>, address: Option<string>)

  /** The customer row to insert, or why not: a missing name or phone (400), or a phone
      already on file (400, "an existing customer"). */
  function NewCustomer(customers: seq<Customer>, body: CustomerBody, now: int): (r: Result<Customer>)
    ensures r.Err? <==>
      !PresentText(body.firstName) || !PresentText(body.lastName) || !PresentText(body.phone)
      || Taken(customers, Phone, body.phone.value)
    ensures r.Err? ==> r.error.status == 400
    ensures r.Err? && PresentText(body.firstName) && PresentText(body.lastName) && PresentText(body.phone)
      ==> r.error.message == PhoneTaken
    ensures r.Ok? ==> r.value.id == |customers| + 1 && r.value.createdAt == now
    ensures r.Ok? ==> r.value.firstName == body.firstName.value && r.value.lastName == body.lastName.value
    ensures r.Ok? ==> r.value.phone == body.phone.value && r.value.address == TextOrNull(body.address)
  {
    if !PresentText(body.firstName) || !PresentText(body.lastName) || !PresentText(body.phone) then
      Err(HttpError(400, CustomerFieldsRequired))
    else if Taken(customers, Phone, body.phone.value) then
      Err(HttpError(400, PhoneTaken))
    else
      Ok(Customer(|customers| + 1, body.firstName.value, body.lastName.value, body.phone.value,
                  TextOrNull(body.address), now))
  }

  lemma InsertCustomerKeepsConsistent(
    customers: seq<Customer>, users: seq<User>, categories: seq<Category>,
    products: seq<Product>, services: seq<Service>, promotions: seq<Promotion>,
    sales: seq<Sale>, saleItems: seq<SaleItem>, settings: seq<ClinicSettings>, c: Customer)
    requires Consistent(customers, users, categories, products, services, promotions, sales, saleItems, settings)
    requires c.id == |customers| + 1 && !Taken(customers, Phone, c.phone)
    ensures Consistent(customers + [c], users, categories, products, services, promotions, sales, saleItems, settings)
  {
    AppendKeepsUnique(customers, Phone, c);
    forall i | 0 <= i < |sales| ensures SaleRefsValid(sales[i], |customers| + 1, |users|, |promotions|) {
      assert SaleRefsValid(sales[i], |customers|, |users|, |promotions|);
    }
  }

  /** POST /api/customers. */
  method CreateCustomer(db: Database, caller: Option<JwtPayload>, body: CustomerBody, now: int)
    returns (r: Result<Customer>)
    requires db.Valid()
    modifies db`customers
    ensures db.Valid()
    ensures caller.None? ==> r == Err(HttpError(401, LoginRequired))
    ensures caller.Some? ==> r == NewCustomer(old(db.customers), body, now)
    ensures r.Ok? ==> db.customers == old(db.customers) + [r.value]
    ensures r.Err? ==> db.customers == old(db.customers)
  {
    var auth := RequireAuth(caller);
    if auth.Err? {
      return Err(auth.error);
    }
    if !PresentText(body.firstName) || !PresentText(body.lastName) || !PresentText(body.phone) {
      return Err(HttpError(400, CustomerFieldsRequired));
    }
    var existing := FirstIndex(db.customers, Phone, body.phone.value);
    if existing.Some? {
      return Err(HttpError(400, PhoneTaken));
    }
    var customer := Customer(|db.customers| + 1, body.firstName.value, body.lastName.value,
                             body.phone.value, TextOrNull(body.address), now);
    InsertCustomerKeepsConsistent(db.customers, db.users, db.categories, db.products, db.services,
                                  db.promotions, db.sales, db.saleItems, db.settings, customer);
    db.customers := db.customers + [customer];
    r := Ok(customer);
  }

  /** Registering the same phone twice is refused the second time. */
  lemma PhoneRegisteredOnce(customers: seq<Customer>, body: CustomerBody, now: int, later: int)
    requires NewCustomer(customers, body, now).Ok?
    ensures NewCustomer(customers + [NewCustomer(customers, body, now).value], body, later)
      == Err(HttpError(400, PhoneTaken))
  {
    var c := NewCustomer(customers, body, now).value;
    assert Phone((customers + [c])[|customers|]) == body.phone.value;
  }

  // ---------------------------------------------------------------- users

  datatype UserBody = UserBody(
    username: Option<string>, password: Option<string>, name: Option<string>, role: Option<string>)

  /** The reply: the new user without its password hash. */
  datatype UserView = UserView(id: nat, username: string, name: string, role: Role, isActive: bool, createdAt: int)

  function ViewOf(u: User): UserView {
    UserView(u.id, u.username, u.name, u.role, u.isActive, u.createdAt)
  }

  /** The user row to insert: only after the admin check, with all three of username,
      password and name (400), a free username (400), and a role the store accepts
      (`role || "EMPLOYEE"`; any other text is refused by the store). The password is
      stored only as its hash. */
  function NewUser(users: seq<User>, body: UserBody, hashPassword: string -> string, now: int): (r: Result<User>)
    ensures r.Ok? <==>
      && PresentText(body.username) && PresentText(body.password) && PresentText(body.name)
      && !Taken(users, Username, body.username.value)
      && ParseRole(TextOr(body.role, DefaultRole)).Some?
    ensures r.Err? && !(PresentText(body.username) && PresentText(body.password) && PresentText(body.name))
      ==> r.error == HttpError(400, RequiredFieldsMissing)
    ensures r.Ok? ==> r.value.id == |users| + 1 && r.value.isActive && r.value.createdAt == now
    ensures r.Ok? ==> r.value.username == body.username.value && r.value.name == body.name.value
    ensures r.Ok? ==> r.value.password == hashPassword(body.password.value)
    ensures r.Ok? ==> RoleName(r.value.role) == TextOr(body.role, DefaultRole)
    ensures r.Ok? && !PresentText(body.role) ==> r.value.role == EMPLOYEE
  {
    if !PresentText(body.username) || !PresentText(body.password) || !PresentText(body.name) then
      Err(HttpError(400, RequiredFieldsMissing))
    else if Taken(users, Username, body.username.value) then
      Err(HttpError(400, UsernameTaken))
    else
      match ParseRole(TextOr(body.role, DefaultRole))
      case None => Err(HttpError(500, StoreRejected))
      case Some(role) =>
        Ok(User(|users| + 1, body.username.value, hashPassword(body.password.value), body.name.value,
                role, true, now))
  }

  lemma InsertUserKeepsConsistent(
    customers: seq<Customer>, users: seq<User>, categories: seq<Category>,
    products: seq<Product>, services: seq<Service>, promotions: seq<Promotion>,
    sales: seq<Sale>, saleItems: seq<SaleItem>, settings: seq<ClinicSettings>, u: User)
    requires Consistent(customers, users, categories, products, services, promotions, sales, saleItems, settings)
    requires u.id == |users| + 1 && !Taken(users, Username, u.username)
    ensures Consistent(customers, users + [u], categories, products, services, promotions, sales, saleItems, settings)
  {
    AppendKeepsUnique(users, Username, u);
    forall i | 0 <= i < |sales| ensures SaleRefsValid(sales[i], |customers|, |users| + 1, |promotions|) {
      assert SaleRefsValid(sales[i], |customers|, |users|, |promotions|);
    }
  }

  /** POST /api/users: admins only. */
  method CreateUser(db: Database, caller: Option<JwtPayload>, body: UserBody,
                    hashPassword: string -> string, now: int)
    returns (r: Result<UserView>)
    requires db.Valid()
    modifies db`users
    ensures db.Valid()
    ensures RequireAdmin(caller).Err? ==> r == Err(RequireAdmin(caller).error)
    ensures RequireAdmin(caller).Ok? ==>
      var plan := NewUser(old(db.users), body, hashPassword, now);
      && (plan.Err? ==> r == Err(plan.error))
      && (plan.Ok? ==> r == Ok(ViewOf(plan.value)))
    ensures r.Ok? ==> |db.users| == |old(db.users)| + 1 && db.users[..|old(db.users)|] == old(db.users)
    ensures r.Ok? ==> ViewOf(db.users[|old(db.users)|]) == r.value
    ensures r.Ok? ==> db.users == old(db.users) + [NewUser(old(db.users), body, hashPassword, now).value]
    ensures r.Ok? ==> db.users[|old(db.users)|].password == hashPassword(body.password.value)
    ensures r.Err? ==> db.users == old(db.users)
  {
    var auth := RequireAdmin(caller);
    if auth.Err? {
      return Err(auth.error);
    }
    if !PresentText(body.username) || !PresentText(body.password) || !PresentText(body.name) {
      return Err(HttpError(400, RequiredFieldsMissing));
    }
    var existing := FirstIndex(db.users, Username, body.username.value);
    if existing.Some? {
      return Err(HttpError(400, UsernameTaken));
    }
    var hashed := hashPassword(body.password.value);
    var role := ParseRole(TextOr(body.role, DefaultRole));
    if role.None? {
      return Err(HttpError(500, StoreRejected));
    }
    var user := User(|db.users| + 1, body.username.value, hashed, body.name.value, role.value, true, now);
    InsertUserKeepsConsistent(db.customers, db.users, db.categories, db.products, db.services,
                              db.promotions, db.sales, db.saleItems, db.settings, user);
    db.users := db.users + [user];
    r := Ok(ViewOf(user));
  }

  // ---------------------------------------------------------------- categories

  datatype CategoryBody = CategoryBody(name: Option<string>, unit: Option<string>)

  /** The category row to insert: name and unit required (400), name not yet used (400). */
  function NewCategory(categories: seq<Category>, body: CategoryBody, now: int): (r: Result<Category>)
    ensures r.Err? <==>
      !PresentText(body.name) || !PresentText(body.unit) || Taken(categories, CategoryName, body.name.value)
    ensures r.Err? ==> r.error.status == 400
    ensures r.Err? && PresentText(body.name) && PresentText(body.unit) ==> r.error.message == CategoryNameTaken
    ensures r.Ok? ==> r.value == Category(|categories| + 1, body.name.value, body.unit.value, now)
  {
    if !PresentText(body.name) || !PresentText(body.unit) then Err(HttpError(400, NameAndUnitRequired))
    else if Taken(categories, CategoryName, body.name.value) then Err(HttpError(400, CategoryNameTaken))
    else Ok(Category(|categories| + 1, body.name.value, body.unit.value, now))
  }

  lemma InsertCategoryKeepsConsistent(
    customers: seq<Customer>, users: seq<User>, categories: seq<Category>,
    products: seq<Product>, services: seq<Service>, promotions: seq<Promotion>,
    sales: seq<Sale>, saleItems: seq<SaleItem>, settings: seq<ClinicSettings>, c: Category)
    requires Consistent(customers, users, categories, products, services, promotions, sales, saleItems, settings)
    requires c.id == |categories| + 1 && !Taken(categories, CategoryName, c.name)
    ensures Consistent(customers, users, categories + [c], products, services, promotions, sales, saleItems, settings)
  {
    AppendKeepsUnique(categories, CategoryName, c);
  }

  /** POST /api/categories. */
  method CreateCategory(db: Database, caller: Option<JwtPayload>, body: CategoryBody, now: int)
    returns (r: Result<Category>)
    requires db.Valid()
    modifies db`categories
    ensures db.Valid()
    ensures caller.None? ==> r == Err(HttpError(401, LoginRequired))
    ensures caller.Some? ==> r == NewCategory(old(db.categories), body, now)
    ensures r.Ok? ==> db.categories == old(db.categories) + [r.value]
    ensures r.Err? ==> db.categories == old(db.categories)
  {
    var auth := RequireAuth(caller);
    if auth.Err? {
      return Err(auth.error);
    }
    if !PresentText(body.name) || !PresentText(body.unit) {
      return Err(HttpError(400, NameAndUnitRequired));
    }
    var existing := FirstIndex(db.categories, CategoryName, body.name.value);
    if existing.Some? {
      return Err(HttpError(400, CategoryNameTaken));
    }
    var category := Category(|db.categories| + 1, body.name.value, body.unit.value, now);
    InsertCategoryKeepsConsistent(db.customers, db.users, db.categories, db.products, db.services,
                                  db.promotions, db.sales, db.saleItems, db.settings, category);
    db.categories := db.categories + [category];
    r := Ok(category);
  }

  // ---------------------------------------------------------------- products

  datatype ProductBody = ProductBody(
    name: Option<string>, description: Option<string>, price: Option<int>, costPrice: Option<int>,
    stock: Option<int>, minStock: Option<int>, categoryId: Option<int>)

  /** The product row to insert: name, a non-zero price and a non-zero category required
      (400); the category must exist, or the store refuses the row. The cost price falls
      back to the price, the stock to 0, the minimum to 5. There is no uniqueness check. */
  function NewProduct(products: seq<Product>, categories: nat, body: ProductBody, now: int): (r: Result<Product>)
    ensures r.Ok? <==>
      && PresentText(body.name) && PresentNumber(body.price) && PresentNumber(body.categoryId)
      && 1 <= body.categoryId.value <= categories
    ensures r.Err? && !(PresentText(body.name) && PresentNumber(body.price) && PresentNumber(body.categoryId))
      ==> r.error == HttpError(400, RequiredFieldsMissing)
    ensures r.Ok? ==> r.value.id == |products| + 1 && r.value.isActive && r.value.createdAt == now
    ensures r.Ok? ==> r.value.name == body.name.value && r.value.description == TextOrNull(body.description)
    ensures r.Ok? ==> r.value.price == body.price.value && r.value.categoryId as int == body.categoryId.value
    ensures r.Ok? ==> r.value.costPrice == (if PresentNumber(body.costPrice) then body.costPrice.value else body.price.value)
    ensures r.Ok? ==> r.value.stock == (if PresentNumber(body.stock) then body.stock.value else 0)
    ensures r.Ok? ==> r.value.minStock == (if PresentNumber(body.minStock) then body.minStock.value else DefaultMinStock)
  {
    if !PresentText(body.name) || !PresentNumber(body.price) || !PresentNumber(body.categoryId) then
      Err(HttpError(400, RequiredFieldsMissing))
    else if !(1 <= body.categoryId.value <= categories) then
      Err(HttpError(500, StoreRejected))
    else
      Ok(Product(|products| + 1, body.name.value, TextOrNull(body.description), body.price.value,
                 NumberOr(body.costPrice, body.price.value), NumberOr(body.stock, 0),
                 NumberOr(body.minStock, DefaultMinStock), body.categoryId.value as nat, true, now))
  }

  lemma InsertProductKeepsConsistent(
    customers: seq<Customer>, users: seq<User>, categories: seq<Category>,
    products: seq<Product>, services: seq<Service>, promotions: seq<Promotion>,
    sales: seq<Sale>, saleItems: seq<SaleItem>, settings: seq<ClinicSettings>, p: Product)
    requires Consistent(customers, users, categories, products, services, promotions, sales, saleItems, settings)
    requires p.id == |products| + 1 && Refers(p.categoryId, |categories|)
    ensures Consistent(customers, users, categories, products + [p], services, promotions, sales, saleItems, settings)
  {
    forall i | 0 <= i < |saleItems| ensures SaleItemRefsValid(saleItems[i], |sales|, |products| + 1, |services|) {
      assert SaleItemRefsValid(saleItems[i], |sales|, |products|, |services|);
    }
  }

  /** POST /api/products. */
  method CreateProduct(db: Database, caller: Option<JwtPayload>, body: ProductBody, now: int)
    returns (r: Result<Product>)
    requires db.Valid()
    modifies db`products
    ensures db.Valid()
    ensures caller.None? ==> r == Err(HttpError(401, LoginRequired))
    ensures caller.Some? ==> r == NewProduct(old(db.products), |db.categories|, body, now)
    ensures r.Ok? ==> db.products == old(db.products) + [r.value]
    ensures r.Err? ==> db.products == old(db.products)
  {
    var auth := RequireAuth(caller);
    if auth.Err? {
      return Err(auth.error);
    }
    if !PresentText(body.name) || !PresentNumber(body.price) || !PresentNumber(body.categoryId) {
      return Err(HttpError(400, RequiredFieldsMissing));
    }
    if !(1 <= body.categoryId.value <= |db.categories|) {
      return Err(HttpError(500, StoreRejected));
    }
    var product := Product(|db.products| + 1, body.name.value, TextOrNull(body.description), body.price.value,
                           NumberOr(body.costPrice, body.price.value), NumberOr(body.stock, 0),
                           NumberOr(body.minStock, DefaultMinStock), body.categoryId.value as nat, true, now);
    InsertProductKeepsConsistent(db.customers, db.users, db.categories, db.products, db.services,
                                 db.promotions, db.sales, db.saleItems, db.settings, product);
    db.products := db.products + [product];
    r := Ok(product);
  }

  /** A product created without stock figures starts empty with a minimum of 5, so it is
      low on stock (and out of stock) from the start. */
  lemma NewProductStartsLow(products: seq<Product>, categories: nat, body: ProductBody, now: int)
    requires NewProduct(products, categories, body, now).Ok?
    requires !PresentNumber(body.stock) && !PresentNumber(body.minStock)
    ensures LowOnStock(NewProduct(products, categories, body, now).value)
    ensures NewProduct(products, categories, body, now).value.stock == 0
  {
  }

  // ---------------------------------------------------------------- promotions

  /** The body; the two dates are the raw texts, which `new Date(...)` reads with `parseDate`
      (None for an invalid date, which the store refuses). */
  datatype PromotionBody = PromotionBody(
    name: Option<string>, description: Option<string>, discount: Option<int>, isPercent: Option<bool>,
    startDate: Option<string>, endDate: Option<string>)

  /** The promotion row to insert: name, a non-zero discount and both dates required (400);
      `isPercent` falls back to false. Nothing checks that the window is in order. */
  function NewPromotion(promotions: seq<Promotion>, body: PromotionBody, parseDate: string -> Option<int>, now: int)
    : (r: Result<Promotion>)
    ensures r.Ok? <==>
      && PresentText(body.name) && PresentNumber(body.discount)
      && PresentText(body.startDate) && PresentText(body.endDate)
      && parseDate(body.startDate.value).Some? && parseDate(body.endDate.value).Some?
    ensures r.Err? && !(PresentText(body.name) && PresentNumber(body.discount)
                        && PresentText(body.startDate) && PresentText(body.endDate))
      ==> r.error == HttpError(400, RequiredFieldsMissing)
    ensures r.Ok? ==> r.value.id == |promotions| + 1 && r.value.isActive && r.value.createdAt == now
    ensures r.Ok? ==> r.value.name == body.name.value && r.value.description == TextOrNull(body.description)
    ensures r.Ok? ==> r.value.discount == body.discount.value
    ensures r.Ok? ==> (r.value.isPercent <==> body.isPercent == Some(true))
    ensures r.Ok? ==> Some(r.value.startDate) == parseDate(body.startDate.value)
    ensures r.Ok? ==> Some(r.value.endDate) == parseDate(body.endDate.value)
  {
    if !PresentText(body.name) || !PresentNumber(body.discount)
       || !PresentText(body.startDate) || !PresentText(body.endDate) then
      Err(HttpError(400, RequiredFieldsMissing))
    else
      match (parseDate(body.startDate.value), parseDate(body.endDate.value))
      case (Some(start), Some(end)) =>
        Ok(Promotion(|promotions| + 1, body.name.value, TextOrNull(body.description), body.discount.value,
                     body.isPercent.Some? && body.isPercent.value, start, end, true, now))
      case _ => Err(HttpError(500, StoreRejected))
  }

  /** POST /api/promotions. */
  method CreatePromotion(db: Database, caller: Option<JwtPayload>, body: PromotionBody,
                         parseDate: string -> Option<int>, now: int)
    returns (r: Result<Promotion>)
    requires db.Valid()
    modifies db`promotions
    ensures db.Valid()
    ensures caller.None? ==> r == Err(HttpError(401, LoginRequired))
    ensures caller.Some? ==> r == NewPromotion(old(db.promotions), body, parseDate, now)
    ensures r.Ok? ==> db.promotions == old(db.promotions) + [r.value]
    ensures r.Err? ==> db.promotions == old(db.promotions)
  {
    var auth := RequireAuth(caller);
    if auth.Err? {
      return Err(auth.error);
    }
    if !PresentText(body.name) || !PresentNumber(body.discount)
       || !PresentText(body.startDate) || !PresentText(body.endDate) {
      return Err(HttpError(400, RequiredFieldsMissing));
    }
    var isPercent := false;
    if body.isPercent.Some? && body.isPercent.value {
      isPercent := true;
    }
    var start := parseDate(body.startDate.value);
    var end := parseDate(body.endDate.value);
    if start.None? || end.None? {
      return Err(HttpError(500, StoreRejected));
    }
    var promotion := Promotion(|db.promotions| + 1, body.name.value, TextOrNull(body.description),
                               body.discount.value, isPercent, start.value, end.value, true, now);
    assert forall i :: 0 <= i < |db.sales| ==>
      SaleRefsValid(db.sales[i], |db.customers|, |db.users|, |db.promotions| + 1);
    db.promotions := db.promotions + [promotion];
    r := Ok(promotion);
  }

  /** A promotion whose window is reversed is stored as given, and then never runs. */
  lemma ReversedWindowNeverRuns(promotions: seq<Promotion>, body: PromotionBody,
                                parseDate: string -> Option<int>, now: int, t: int)
    requires NewPromotion(promotions, body, parseDate, now).Ok?
    requires parseDate(body.endDate.value).value < parseDate(body.startDate.value).value
    ensures var p := NewPromotion(promotions, body, parseDate, now).value;
      !(p.startDate <= t <= p.endDate)
  {
  }

  // ---------------------------------------------------------------- services

  datatype ServiceBody = ServiceBody(name: Option<string>, description: Option<string>, price: Option<int>)

  /** The service row to insert: name and a non-zero price required (400). */
  function NewService(services: seq<Service>, body: ServiceBody, now: int): (r: Result<Service>)
    ensures r.Err? <==> !PresentText(body.name) || !PresentNumber(body.price)
    ensures r.Err? ==> r.error == HttpError(400, NameAndPriceRequired)
    ensures r.Ok? ==> r.value == Service(|services| + 1, body.name.value, TextOrNull(body.description),
                                         body.price.value, true, now)
  {
    if !PresentText(body.name) || !PresentNumber(body.price) then Err(HttpError(400, NameAndPriceRequired))
    else Ok(Service(|services| + 1, body.name.value, TextOrNull(body.description), body.price.value, true, now))
  }

  /** POST /api/services. */
  method CreateService(db: Database, caller: Option<JwtPayload>, body: ServiceBody, now: int)
    returns (r: Result<Service>)
    requires db.Valid()
    modifies db`services
    ensures db.Valid()
    ensures caller.None? ==> r == Err(HttpError(401, LoginRequired))
    ensures caller.Some? ==> r == NewService(old(db.services), body, now)
    ensures r.Ok? ==> db.services == old(db.services) + [r.value]
    ensures r.Err? ==> db.services == old(db.services)
  {
    var auth := RequireAuth(caller);
    if auth.Err? {
      return Err(auth.error);
    }
    if !PresentText(body.name) || !PresentNumber(body.price) {
      return Err(HttpError(400, NameAndPriceRequired));
    }
    var service := Service(|db.services| + 1, body.name.value, TextOrNull(body.description), body.price.value, true, now);
    assert forall i :: 0 <= i < |db.saleItems| ==>
      SaleItemRefsValid(db.saleItems[i], |db.sales|, |db.products|, |db.services| + 1);
    db.services := db.services + [service];
    r := Ok(service);
  }
}
