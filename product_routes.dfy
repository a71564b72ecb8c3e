/** The product API (backend/routes/productRoutes.js): the shop-id check,
    reviews with one review per user and product, the update that merges a
    body into a product and mails its restock wait-list, deletion, and
    subscription to that wait-list. The database is a map from id to
    record; `sendMail` is a parameter deciding, message by message, whether
    the send succeeds, and every attempt is recorded in an outbox trace. */
module ProductRoutes {
  import opened Common
  import opened Lists
  import opened Auth

  /** The fields of a product the routes read or write. */
  datatype Product = Product(
    name: string,
    description: Option<string>,
    price: int,
    category: Option<string>,
    tags: seq<string>,
    shopId: Option<string>,
    inStock: bool,
    sizes: seq<string>,
    notifyEmails: seq<string>)

  /** A request body for `PUT /:id`: the fields it names, with their values. */
  datatype ProductPatch = ProductPatch(
    name: Option<string>,
    description: Option<string>,
    price: Option<int>,
    category: Option<string>,
    tags: Option<seq<string>>,
    shopId: Option<string>,
    inStock: Option<bool>,
    sizes: Option<seq<string>>,
    notifyEmails: Option<seq<string>>)

  const EmptyPatch := ProductPatch(None, None, None, None, None, None, None, None, None)

  datatype Shop = Shop(name: string, email: Option<string>)

  datatype Review = Review(productId: string, userId: Option<string>, rating: int, comment: string, createdAt: int)

  datatype Mail = Mail(to: string, from: string, subject: string, text: string)

  /** One call of `sendMail` and whether it went through. */
  datatype SendAttempt = SendAttempt(mail: Mail, delivered: bool)

  /** What a route answers: a `{ message }` body with its status, a
      product, or a review. */
  datatype Reply =
    | Message(status: int, message: string)
    | ProductJson(product: Product)
    | ReviewJson(status: int, review: Review)

  const NotFound := "Produit non trouvé"
  const RestockSubject := "Votre produit est de nouveau en stock !"

  const RestockOpening := "Bonjour,\n\nLe produit \""
  const RestockClosing :=
    "\" est de nouveau disponible sur notre boutique ! Rendez-vous vite sur le site pour le commander.\n\nCeci est un message automatique."

  /** The body of a restock mail, naming the product. */
  function RestockText(name: string): string {
    RestockOpening + name + RestockClosing
  }

  predicate IsHexDigit(c: char) {
    '0' <= c <= '9' || 'a' <= c <= 'f' || 'A' <= c <= 'F'
  }

  /** `/^[0-9a-fA-F]{24}$/.test(shopId)`, scanned one character at a time. */
  function IsHexId(shopId: string): (ok: bool)
    ensures ok <==> |shopId| == 24 && forall i :: 0 <= i < |shopId| ==> IsHexDigit(shopId[i])
  {
    |shopId| == 24 && AllHex(shopId)
  }

  function AllHex(s: string): (ok: bool)
    ensures ok <==> forall i :: 0 <= i < |s| ==> IsHexDigit(s[i])
  {
    if s == [] then true else IsHexDigit(s[0]) && AllHex(s[1..])
  }

  /** `Object.assign(product, req.body)`: every field the body names is
      overwritten with its value, every other field is kept. */
  function Merge(p: Product, body: ProductPatch): (r: Product)
    ensures r.name == body.name.GetOr(p.name)
    ensures r.description == (if body.description.Some? then body.description else p.description)
    ensures r.price == body.price.GetOr(p.price)
    ensures r.category == (if body.category.Some? then body.category else p.category)
    ensures r.tags == body.tags.GetOr(p.tags)
    ensures r.shopId == (if body.shopId.Some? then body.shopId else p.shopId)
    ensures r.inStock == body.inStock.GetOr(p.inStock)
    ensures r.sizes == body.sizes.GetOr(p.sizes)
    ensures r.notifyEmails == body.notifyEmails.GetOr(p.notifyEmails)
  {
    Product(
      body.name.GetOr(p.name),
      if body.description.Some? then body.description else p.description,
      body.price.GetOr(p.price),
      if body.category.Some? then body.category else p.category,
      body.tags.GetOr(p.tags),
      if body.shopId.Some? then body.shopId else p.shopId,
      body.inStock.GetOr(p.inStock),
      body.sizes.GetOr(p.sizes),
      body.notifyEmails.GetOr(p.notifyEmails))
  }

  /** An empty body changes nothing, and sending the same body twice is
      the same as sending it once. */
  lemma MergeEmptyAndIdempotent(p: Product, body: ProductPatch)
    ensures Merge(p, EmptyPatch) == p
    ensures Merge(Merge(p, body), body) == Merge(p, body)
  {
  }

  /** The restock condition of `PUT /:id`: out of stock before the merge,
      in stock after it, with someone waiting. */
  predicate RestockFires(before: Product, after: Product) {
    !before.inStock && after.inStock && |after.notifyEmails| > 0
  }

  /** The sender of restock mails: the shop's email when the product names
      a shop that exists and has one, the default address otherwise. */
  function Sender(shopId: Option<string>, shops: map<string, Shop>, default: string): (from: string)
    ensures from != default ==>
      Truthy(shopId) && shopId.value in shops && Truthy(shops[shopId.value].email) && from == shops[shopId.value].email.value
    ensures Truthy(shopId) && shopId.value in shops && Truthy(shops[shopId.value].email)
      ==> from == shops[shopId.value].email.value
  {
    if Truthy(shopId) && shopId.value in shops && Truthy(shops[shopId.value].email) then
      shops[shopId.value].email.value
    else default
  }

  /** The sends of the restock loop: one attempt per address, in list
      order, each with the same sender, subject and text; whether an
      earlier send failed has no effect on the later ones. */
  function Attempts(emails: seq<string>, from: string, subject: string, text: string, send: Mail -> bool): (r: seq<SendAttempt>)
    ensures |r| == |emails|
    ensures forall i :: 0 <= i < |r| ==>
      r[i].mail == Mail(emails[i], from, subject, text) && r[i].delivered == send(r[i].mail)
  {
    if emails == [] then []
    else
      var mail := Mail(emails[|emails| - 1], from, subject, text);
      Attempts(emails[..|emails| - 1], from, subject, text, send) + [SendAttempt(mail, send(mail))]
  }

  lemma AttemptsStep(emails: seq<string>, i: nat, from: string, subject: string, text: string, send: Mail -> bool)
    requires i < |emails|
    ensures var mail := Mail(emails[i], from, subject, text);
      Attempts(emails[..i + 1], from, subject, text, send) == Attempts(emails[..i], from, subject, text, send) + [SendAttempt(mail, send(mail))]
  {
    assert emails[..i + 1][..i] == emails[..i];
  }

  /** `email` appended unless already present (exact, case-sensitive
      comparison). */
  function AddUnique(emails: seq<string>, email: string): (r: seq<string>)
    ensures email in r
    ensures forall x :: x in r <==> x in emails || x == email
    ensures email in emails ==> r == emails
    ensures email !in emails ==> r == emails + [email]
    ensures Distinct(emails) ==> Distinct(r)
  {
    if email in emails then emails else emails + [email]
  }

  /** Subscribing the same address twice is subscribing it once. */
  lemma AddUniqueIdempotent(emails: seq<string>, email: string)
    ensures AddUnique(AddUnique(emails, email), email) == AddUnique(emails, email)
  {
  }

  /** The `email` field of the subscription body: missing, a string, or
      some other JSON value. */
  datatype EmailField = Missing | Text(s: string) | NotText

  /** `req.user.id || req.user._id || req.user.userId`: the user key a new
      review is stored under. */
  function StoredUserKey(user: Claims): (k: Option<string>)
    ensures Truthy(user.id) ==> k == user.id
    ensures !Truthy(user.id) && Truthy(user.underscoreId) ==> k == user.underscoreId
    ensures !Truthy(user.id) && !Truthy(user.underscoreId) ==> k == user.userId
  {
    if Truthy(user.id) then user.id
    else if Truthy(user.underscoreId) then user.underscoreId
    else user.userId
  }

  /** The duplicate query as written:
      `Review.findOne({ productId, userId: req.user.id })`. A filter key
      whose value is `undefined` is dropped from the query, so without an
      `id` claim every review of the product matches. */
  predicate MatchesAsWritten(r: Review, productId: string, user: Claims) {
    r.productId == productId && (user.id.None? || r.userId == user.id)
  }

  predicate ReviewExistsAsWritten(reviews: seq<Review>, productId: string, user: Claims) {
    exists i :: 0 <= i < |reviews| && MatchesAsWritten(reviews[i], productId, user)
  }

  /** The duplicate query keyed on the same user key the review is stored
      under. */
  predicate AlreadyReviewed(reviews: seq<Review>, productId: string, key: Option<string>) {
    exists i :: 0 <= i < |reviews| && reviews[i].productId == productId && reviews[i].userId == key
  }

  /** Tokens issued at register and login carry only `userId`: with the
      query as written, one user's review blocks every other user from
      reviewing the same product. */
  lemma AsWrittenBlocksOtherUser()
    ensures var first := Claims(None, None, Some("u1"), Some("a@b.co"), Some("user"));
      var second := Claims(None, None, Some("u2"), Some("c@d.co"), Some("user"));
      var reviews := [Review("p1", StoredUserKey(first), 5, "ok", 0)];
      && ReviewExistsAsWritten(reviews, "p1", second)
      && !AlreadyReviewed(reviews, "p1", StoredUserKey(second))
  {
    var first := Claims(None, None, Some("u1"), Some("a@b.co"), Some("user"));
    var reviews := [Review("p1", StoredUserKey(first), 5, "ok", 0)];
    assert MatchesAsWritten(reviews[0], "p1", Claims(None, None, Some("u2"), Some("c@d.co"), Some("user")));
  }

  /** When the token does carry a non-empty `id`, the query as written and
      the corrected one agree. */
  lemma ChecksAgreeWithIdClaim(reviews: seq<Review>, productId: string, user: Claims)
    requires Truthy(user.id)
    ensures ReviewExistsAsWritten(reviews, productId, user) <==> AlreadyReviewed(reviews, productId, StoredUserKey(user))
  {
    if ReviewExistsAsWritten(reviews, productId, user) {
      var i :| 0 <= i < |reviews| && MatchesAsWritten(reviews[i], productId, user);
      assert reviews[i].productId == productId && reviews[i].userId == StoredUserKey(user);
    }
  }

  /** No two reviews share a product and a user key. */
  predicate UniqueReviews(reviews: seq<Review>) {
    forall i, j :: 0 <= i < j < |reviews| ==>
      !(reviews[i].productId == reviews[j].productId && reviews[i].userId == reviews[j].userId)
  }

  /** Appending a review whose (product, user) key is not yet taken keeps
      the keys unique. */
  lemma ReviewInsertKeepsUnique(reviews: seq<Review>, r: Review)
    requires UniqueReviews(reviews)
    requires !AlreadyReviewed(reviews, r.productId, r.userId)
    ensures UniqueReviews(reviews + [r])
  {
    var all := reviews + [r];
    forall i, j | 0 <= i < j < |all|
      ensures !(all[i].productId == all[j].productId && all[i].userId == all[j].userId)
    {
      if j == |reviews| {
        assert all[i] == reviews[i];
      }
    }
  }

  /** The reviews of a product listed newest first
      (`sort({ createdAt: -1 })`). */
  function NewestFirst(reviews: seq<Review>, productId: string): (r: seq<Review>)
    ensures forall x :: x in r <==> x in reviews && x.productId == productId
    ensures forall x :: multiset(r)[x] == if x.productId == productId then multiset(reviews)[x] else 0
    ensures forall i, j :: 0 <= i < j < |r| ==> r[i].createdAt >= r[j].createdAt
  {
    var ofProduct := (x: Review) => x.productId == productId;
    var mine := Filter(reviews, ofProduct);
    FilterCount(reviews, ofProduct);
    var sorted := SortBy(mine, (x: Review) => -x.createdAt);
    forall x
      ensures multiset(sorted)[x] == if x.productId == productId then multiset(reviews)[x] else 0
      ensures x in sorted <==> x in mine
    {
      assert multiset(sorted)[x] == multiset(mine)[x];
      assert x in sorted <==> x in multiset(sorted);
      assert x in mine <==> x in multiset(mine);
    }
    sorted
  }

  class ProductService {
    var products: map<string, Product>
    var shops: map<string, Shop>
    var reviews: seq<Review>
    /** Every `sendMail` call made, in order. */
    var outbox: seq<SendAttempt>
    /** `process.env.GMAIL_USER` */
    var defaultSender: string

    predicate Valid()
      reads this
    {
      UniqueReviews(reviews)
    }

    constructor (products: map<string, Product>, shops: map<string, Shop>, defaultSender: string)
      ensures Valid()
      ensures this.products == products && this.shops == shops && this.defaultSender == defaultSender
      ensures reviews == [] && outbox == []
    {
      this.products := products;
      this.shops := shops;
      this.defaultSender := defaultSender;
      reviews := [];
      outbox := [];
    }

    /** `GET /shop/:shopId`: refused (None, a 400) unless the id is 24 hex
      digits; otherwise the products whose `shopId` equals it. */
    function ProductsOfShop(shopId: string): (r: Option<map<string, Product>>)
      reads this
      ensures r.None? <==> !IsHexId(shopId)
      ensures r.Some? ==> forall id :: id in r.value <==> id in products && products[id].shopId == Some(shopId)
      ensures r.Some? ==> forall id :: id in r.value ==> r.value[id] == products[id]
    {
      if !IsHexId(shopId) then None
      else Some(map id | id in products && products[id].shopId == Some(shopId) :: products[id])
    }

    /** `GET /:productId/reviews` */
    function ReviewsOf(productId: string): (r: seq<Review>)
      reads this
      ensures forall x :: x in r <==> x in reviews && x.productId == productId
      ensures forall x :: multiset(r)[x] == if x.productId == productId then multiset(reviews)[x] else 0
      ensures forall i, j :: 0 <= i < j < |r| ==> r[i].createdAt >= r[j].createdAt
    {
      NewestFirst(reviews, productId)
    }

    /** `POST /:productId/reviews` (behind `auth`): a falsy rating or
        comment is refused with 400; a second review under the same
        (product, user) key is refused with 400; otherwise exactly one
        review is stored, under the user key the claims give. The duplicate
        query uses that same key (see `AsWrittenBlocksOtherUser`). */
    method PostReview(productId: string, user: Claims, rating: Option<int>, comment: Option<string>, now: int)
      returns (reply: Reply)
      requires Valid()
      modifies this`reviews
      ensures Valid()
      ensures (rating.None? || rating.value == 0 || !Truthy(comment)) ==>
        reply == Message(400, "Note et commentaire obligatoires") && reviews == old(reviews)
      ensures (rating.Some? && rating.value != 0 && Truthy(comment)
        && AlreadyReviewed(old(reviews), productId, StoredUserKey(user))) ==>
        reply == Message(400, "Vous avez déjà laissé un avis pour ce produit.") && reviews == old(reviews)
      ensures (rating.Some? && rating.value != 0 && Truthy(comment)
        && !AlreadyReviewed(old(reviews), productId, StoredUserKey(user))) ==>
        var review := Review(productId, StoredUserKey(user), rating.value, comment.value, now);
        reply == ReviewJson(201, review) && reviews == old(reviews) + [review]
    {
      if rating.None? || rating.value == 0 || !Truthy(comment) {
        return Message(400, "Note et commentaire obligatoires");
      }
      var key := StoredUserKey(user);
      if AlreadyReviewed(reviews, productId, key) {
        return Message(400, "Vous avez déjà laissé un avis pour ce produit.");
      }
      var review := Review(productId, key, rating.value, comment.value, now);
      ReviewInsertKeepsUnique(reviews, review);
      reviews := reviews + [review];
      reply := ReviewJson(201, review);
    }

    /** `PUT /:id`: an unknown id is 404. Otherwise the body is merged into
        the product, and when the product goes from out of stock to in
        stock with a non-empty wait-list, every waiting address gets one
        send attempt in list order and the wait-list is then emptied,
        whatever the sends did. In every other case nothing is sent and
        the merged product is stored as it is. */
    method Update(id: string, body: ProductPatch, send: Mail -> bool) returns (reply: Reply)
      modifies this`products, this`outbox
      ensures id !in old(products) ==>
        reply == Message(404, NotFound) && products == old(products) && outbox == old(outbox)
      ensures id in old(products) ==>
        var merged := Merge(old(products)[id], body);
        var fires := RestockFires(old(products)[id], merged);
        var stored := if fires then merged.(notifyEmails := []) else merged;
        && products == old(products)[id := stored]
        && reply == ProductJson(stored)
        && outbox == old(outbox)
             + (if fires then Attempts(merged.notifyEmails, Sender(merged.shopId, shops, defaultSender),
                               RestockSubject, RestockText(merged.name), send)
                else [])
    {
      if id !in products {
        return Message(404, NotFound);
      }
      var before := products[id];
      var wasOutOfStock := before.inStock == false;
      var product := Merge(before, body);
      products := products[id := product];
      if wasOutOfStock && product.inStock && |product.notifyEmails| > 0 {
        assert RestockFires(before, product);
        var from := Sender(product.shopId, shops, defaultSender);
        NotifyAll(product.notifyEmails, from, RestockSubject, RestockText(product.name), send);
        product := product.(notifyEmails := []);
        products := products[id := product];
      } else {
        assert !RestockFires(before, product);
      }
      reply := ProductJson(product);
    }

    /** The send loop of `PUT /:id`: one `sendMail` per address, in order;
        a failed send is recorded and the loop goes on. */
    method NotifyAll(emails: seq<string>, from: string, subject: string, text: string, send: Mail -> bool)
      modifies this`outbox
      ensures outbox == old(outbox) + Attempts(emails, from, subject, text, send)
    {
      var i := 0;
      while i < |emails|
        invariant 0 <= i <= |emails|
        invariant outbox == old(outbox) + Attempts(emails[..i], from, subject, text, send)
      {
        var mail := Mail(emails[i], from, subject, text);
        var delivered := send(mail);
        AttemptsStep(emails, i, from, subject, text, send);
        outbox := outbox + [SendAttempt(mail, delivered)];
        i := i + 1;
      }
      assert emails[..i] == emails;
    }

    /** `DELETE /:id`: removes the product, or answers 404 when there is
        none; nothing else changes. */
    method Delete(id: string) returns (reply: Reply)
      modifies this`products
      ensures id in old(products) ==>
        reply == Message(200, "Produit supprimé !") && products == old(products) - {id}
      ensures id !in old(products) ==>
        reply == Message(404, NotFound) && products == old(products)
    {
      if id !in products {
        return Message(404, NotFound);
      }
      products := products - {id};
      reply := Message(200, "Produit supprimé !");
    }

    /** `POST /:id/notify-when-in-stock`: a missing, empty or non-string
        email is 400 and an unknown product 404; otherwise the address is
        on the product's wait-list afterwards, appended only if it was not
        already there, and no other product changes. */
    method Subscribe(id: string, email: EmailField) returns (reply: Reply)
      modifies this`products
      ensures !email.Text? || email.s == "" ==>
        reply == Message(400, "Email requis") && products == old(products)
      ensures email.Text? && email.s != "" && id !in old(products) ==>
        reply == Message(404, NotFound) && products == old(products)
      ensures email.Text? && email.s != "" && id in old(products) ==>
        && reply == Message(200, "Inscription au rappel enregistrée")
        && products == old(products)[id := old(products)[id].(notifyEmails := AddUnique(old(products)[id].notifyEmails, email.s))]
    {
      if !email.Text? || email.s == "" {
        return Message(400, "Email requis");
      }
      if id !in products {
        return Message(404, NotFound);
      }
      var product := products[id];
      if email.s !in product.notifyEmails {
        products := products[id := product.(notifyEmails := product.notifyEmails + [email.s])];
      }
      reply := Message(200, "Inscription au rappel enregistrée");
    }
  }
}
