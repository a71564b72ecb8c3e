/** The administration page (front/app/admin/page.tsx): how the mall, shop
    and product forms, whose fields hold the text typed in, are turned into
    the bodies sent to the API; the guards that refuse a submission; the
    preview of the secondary images and the button that removes one; and
    the name search over each table. The request itself is left out: a
    submission is modelled by the request it would send, or by the refusal
    shown instead. `Number(...)` is the parameter `number`. */
module AdminPage {
  import opened Common
  import opened Lists
  import opened Text
  import opened Catalog

  const MallsUrl := "http://localhost:5000/api/malls"
  const ShopsUrl := "http://localhost:5000/api/shops"
  const ProductsUrl := "http://localhost:5000/api/products"
  const InvalidMall := "Veuillez sélectionner un mall valide."
  const MissingFields := "Veuillez remplir le nom, le prix et sélectionner un shop."

  /** A list field of a form: the text typed in, or a list, which is what
      an edit loads from the record and what the size check boxes build. */
  datatype ListField = Typed(text: string) | Items(items: seq<string>)

  /** What a submission does: nothing, a refusal with its message, or a
      request with its verb, address and body. */
  datatype Submission<P> = Ignored | Refused(message: string) | Send(verb: string, url: string, body: P)

  /** A piece that came out of a comma list: no comma, and nothing left to
      trim. */
  predicate CleanPiece(t: string) {
    ',' !in t && Trimmed(t)
  }

  lemma TrimmedPiece(s: string)
    ensures ',' !in s ==> CleanPiece(Trim(s))
  {
    TrimmedIff(s);
    if ',' !in s {
      TrimKeepsOut(s, ',');
    }
  }

  /** `pieces.map(t => t.trim())` */
  function TrimAll(pieces: seq<string>): (r: seq<string>)
    ensures |r| == |pieces|
    ensures (forall i :: 0 <= i < |pieces| ==> ',' !in pieces[i]) ==> forall i :: 0 <= i < |r| ==> CleanPiece(r[i])
    decreases |pieces|
  {
    if pieces == [] then []
    else
      TrimmedPiece(pieces[0]);
      var rest := TrimAll(pieces[1..]);
      assert forall i :: 1 <= i < |pieces| ==> pieces[1..][i - 1] == pieces[i];
      [Trim(pieces[0])] + rest
  }

  lemma {:induction false} TrimAllAt(pieces: seq<string>, i: nat)
    requires i < |pieces|
    ensures TrimAll(pieces)[i] == Trim(pieces[i])
    decreases i
  {
    if i > 0 {
      TrimAllAt(pieces[1..], i - 1);
    }
  }

  /** `s.split(",").map(t => t.trim())`: as many pieces as the text has
      commas plus one, each of them clean. */
  function TrimmedPieces(s: string): (r: seq<string>)
    ensures |r| == |Split(s, ',')|
    ensures forall i :: 0 <= i < |r| ==> CleanPiece(r[i])
  {
    TrimAll(Split(s, ','))
  }

  /** The mall and shop tags, `tags ? tags.split(",").map(t => t.trim()) : []`:
      an empty field gives no tag, any other text at least one, and empty
      pieces are kept. */
  function CommaTags(s: string): (r: seq<string>)
    ensures r == [] <==> s == ""
    ensures forall i :: 0 <= i < |r| ==> CleanPiece(r[i])
  {
    if s == "" then [] else TrimmedPieces(s)
  }

  /** `s.split(",").map(t => t.trim()).filter(Boolean)`, used for the
      product tags and for images and sizes given as text: the clean,
      non-empty pieces. */
  function CleanList(s: string): (r: seq<string>)
    ensures forall i :: 0 <= i < |r| ==> r[i] != "" && CleanPiece(r[i])
    ensures |r| <= |Split(s, ',')|
  {
    var pieces := TrimmedPieces(s);
    var r := Filter(pieces, (t: string) => t != "");
    assert forall i :: 0 <= i < |r| ==> r[i] in pieces && r[i] != "";
    r
  }

  /** The empty text gives the empty list, so `images ? … : []` is the same
      as the parse alone. */
  lemma CleanListOfEmpty()
    ensures CleanList("") == []
  {
  }

  /** `Array.isArray(f) ? f : (f ? f.split(",").map(t => t.trim()).filter(Boolean) : [])` */
  function ParsedList(f: ListField): (r: seq<string>)
    ensures f.Items? ==> r == f.items
    ensures f.Typed? ==> forall i :: 0 <= i < |r| ==> r[i] != "" && CleanPiece(r[i])
  {
    match f
    case Items(xs) => xs
    case Typed(s) => CleanList(s)
  }

  /** The join the edit forms prefill a list field with: each piece after
      the first is preceded by a blank, which the comma split leaves at its
      front. */
  function Spaced(xs: seq<string>): seq<string>
    requires |xs| >= 1
  {
    [xs[0]] + seq(|xs| - 1, i requires 0 <= i < |xs| - 1 => " " + xs[i + 1])
  }

  lemma {:induction false} JoinSpaced(xs: seq<string>)
    requires |xs| >= 1
    ensures Join(xs, ", ") == Join(Spaced(xs), [','])
    decreases |xs|
  {
    if |xs| > 1 {
      var tail := xs[1..];
      JoinSpaced(tail);
      var rest := Spaced(tail)[1..];
      assert Spaced(tail) == [tail[0]] + rest;
      assert Spaced(xs) == [xs[0]] + ([" " + tail[0]] + rest);
      JoinFirstPrefix(" ", tail[0], rest, [',']);
      assert Join(Spaced(xs), [',']) == xs[0] + [','] + Join([" " + tail[0]] + rest, [',']);
      assert xs[0] + [','] + (" " + Join(Spaced(tail), [','])) == xs[0] + ", " + Join(Spaced(tail), [',']);
    }
  }

  /** Splitting the prefilled text of clean pieces and trimming gives the
      pieces back. */
  lemma SpacedPieces(xs: seq<string>)
    requires |xs| >= 1
    requires forall i :: 0 <= i < |xs| ==> CleanPiece(xs[i])
    ensures |Spaced(xs)| == |xs|
    ensures forall i :: 0 <= i < |xs| ==> ',' !in Spaced(xs)[i] && Trim(Spaced(xs)[i]) == xs[i]
  {
    var ys := Spaced(xs);
    forall i | 0 <= i < |xs|
      ensures ',' !in ys[i] && Trim(ys[i]) == xs[i]
    {
      TrimmedIff(xs[i]);
      if i > 0 {
        TrimLeadingBlank(xs[i]);
        assert ys[i] == " " + xs[i];
      }
    }
  }

  lemma PiecesOfPrefill(xs: seq<string>)
    requires |xs| >= 1
    requires forall i :: 0 <= i < |xs| ==> CleanPiece(xs[i])
    ensures TrimmedPieces(Join(xs, ", ")) == xs
  {
    JoinSpaced(xs);
    var ys := Spaced(xs);
    SpacedPieces(xs);
    SplitJoin(ys, ',');
    assert Split(Join(xs, ", "), ',') == ys;
    var r := TrimAll(ys);
    forall i | 0 <= i < |xs|
      ensures r[i] == xs[i]
    {
      TrimAllAt(ys, i);
    }
  }

  /** The product lists survive an edit: prefilled with `join(", ")` and
      parsed again on save, clean non-empty pieces come back as they were. */
  lemma {:induction false} PrefilledListRoundTrip(xs: seq<string>)
    requires forall i :: 0 <= i < |xs| ==> xs[i] != "" && CleanPiece(xs[i])
    ensures CleanList(Join(xs, ", ")) == xs
  {
    if xs == [] {
      CleanListOfEmpty();
    } else {
      PiecesOfPrefill(xs);
      FilterKeepsAll(xs, (t: string) => t != "");
    }
  }

  /** The mall and shop tags survive an edit too, empty tags included; only
      a list holding one empty tag comes back as no tag. */
  lemma PrefilledTagsRoundTrip(tags: seq<string>)
    requires forall i :: 0 <= i < |tags| ==> CleanPiece(tags[i])
    ensures tags != [""] ==> CommaTags(Join(tags, ", ")) == tags
    ensures CommaTags(Join([""], ", ")) == []
  {
    if tags != [] && tags != [""] {
      PiecesOfPrefill(tags);
      assert Join(tags, ", ") != "" by {
        if |tags| > 1 {
          assert Join(tags, ", ") == tags[0] + ", " + Join(tags[1..], ", ");
        }
      }
    }
  }

  // ---- Secondary image preview ----

  /** The text the preview splits: a list is joined with commas, an empty
      field is the empty text. */
  function ImagesText(f: ListField): string {
    match f
    case Typed(s) => s
    case Items(xs) => Join(xs, [','])
  }

  /** The previews: the first four clean, non-empty URLs of the field. */
  function Preview(f: ListField): (r: seq<string>)
    ensures var all := CleanList(ImagesText(f));
      && |r| == (if |all| < 4 then |all| else 4)
      && forall k :: 0 <= k < |r| ==> r[k] == all[k]
  {
    var all := CleanList(ImagesText(f));
    if |all| < 4 then all else all[..4]
  }

  /** `arr.filter((_, idx) => idx !== i)` */
  function RemoveAt(s: seq<string>, i: nat): (r: seq<string>)
    requires i < |s|
    ensures |r| == |s| - 1
    ensures forall k :: 0 <= k < |r| ==> r[k] == (if k < i then s[k] else s[k + 1])
  {
    s[..i] + s[i + 1..]
  }

  /** The remove button of preview `i` as written: the field becomes the
      previews, not all the URLs, without the one removed, joined by ", ". */
  function RemovePreviewAsWritten(f: ListField, i: nat): (r: ListField)
    requires i < |Preview(f)|
    ensures r.Typed?
    ensures CleanList(r.text) == RemoveAt(Preview(f), i)
    ensures |CleanList(r.text)| <= 3
  {
    var all := CleanList(ImagesText(f));
    var shown := Preview(f);
    var rest := RemoveAt(shown, i);
    assert forall k :: 0 <= k < |rest| ==> rest[k] != "" && CleanPiece(rest[k]) by {
      forall k | 0 <= k < |rest|
        ensures rest[k] != "" && CleanPiece(rest[k])
      {
        var j := if k < i then k else k + 1;
        assert rest[k] == shown[j] == all[j];
      }
    }
    PrefilledListRoundTrip(rest);
    Typed(Join(rest, ", "))
  }

  /** The images an edit loads are a list, which the preview joins with
      commas; clean non-empty URLs parse back as themselves. */
  lemma {:induction false} CommaJoinRoundTrip(xs: seq<string>)
    requires forall i :: 0 <= i < |xs| ==> xs[i] != "" && CleanPiece(xs[i])
    ensures CleanList(Join(xs, [','])) == xs
  {
    if xs == [] {
      CleanListOfEmpty();
    } else {
      SplitJoin(xs, ',');
      var r := TrimAll(xs);
      forall i | 0 <= i < |xs|
        ensures r[i] == xs[i]
      {
        TrimAllAt(xs, i);
        TrimmedIff(xs[i]);
      }
      assert r == xs;
      FilterKeepsAll(xs, (t: string) => t != "");
    }
  }

  /** The intended removal: every URL of the field except the one whose
      preview was clicked. */
  function RemovePreview(f: ListField, i: nat): (r: ListField)
    requires i < |Preview(f)|
    ensures r.Typed?
    ensures CleanList(r.text) == RemoveAt(CleanList(ImagesText(f)), i)
    ensures |CleanList(r.text)| == |CleanList(ImagesText(f))| - 1
  {
    var all := CleanList(ImagesText(f));
    PrefilledListRoundTrip(RemoveAt(all, i));
    Typed(Join(RemoveAt(all, i), ", "))
  }

  /** Images loaded as a list of clean URLs preview as their first four. */
  lemma PreviewOfLoadedImages(urls: seq<string>)
    requires |urls| >= 4
    requires forall k :: 0 <= k < |urls| ==> urls[k] != "" && CleanPiece(urls[k])
    ensures CleanList(ImagesText(Items(urls))) == urls
    ensures Preview(Items(urls)) == urls[..4]
  {
    CommaJoinRoundTrip(urls);
  }

  /** A record with five or more images, the fifth unlike the first four,
      loaded for editing: removing any preview as written loses the fifth
      image as well, while the intended removal keeps it. */
  lemma RemovalLosesFifthImage(urls: seq<string>, i: nat)
    requires |urls| >= 5 && i < 4
    requires forall k :: 0 <= k < 4 ==> urls[k] != urls[4]
    requires forall k :: 0 <= k < |urls| ==> urls[k] != "" && CleanPiece(urls[k])
    ensures Preview(Items(urls)) == urls[..4]
    ensures urls[4] !in CleanList(RemovePreviewAsWritten(Items(urls), i).text)
    ensures urls[4] in CleanList(RemovePreview(Items(urls), i).text)
  {
    PreviewOfLoadedImages(urls);
    LostByAsWritten(urls, i);
    var kept := RemoveAt(CleanList(ImagesText(Items(urls))), i);
    assert kept[3] == urls[4];
  }

  lemma LostByAsWritten(urls: seq<string>, i: nat)
    requires |urls| >= 5 && i < 4
    requires forall k :: 0 <= k < 4 ==> urls[k] != urls[4]
    requires Preview(Items(urls)) == urls[..4]
    ensures urls[4] !in CleanList(RemovePreviewAsWritten(Items(urls), i).text)
  {
    var shown := Preview(Items(urls));
    var after := RemoveAt(shown, i);
    forall k | 0 <= k < |after|
      ensures after[k] != urls[4]
    {
      var j := if k < i then k else k + 1;
      assert after[k] == shown[j] == urls[j];
    }
  }

  /** The placeholder test: an empty field or list, or a text whose comma
      pieces are all empty. The pieces are not trimmed here. */
  predicate ShowsPlaceholder(f: ListField) {
    match f
    case Items(xs) => xs == []
    case Typed(s) => s == "" || Filter(Split(s, ','), (t: string) => t != "") == []
  }

  /** The placeholder only appears where there is no preview. */
  lemma PlaceholderHasNoPreview(f: ListField)
    requires ShowsPlaceholder(f)
    ensures Preview(f) == []
  {
    var s := ImagesText(f);
    var parts := Split(s, ',');
    if f.Items? {
      assert s == "";
    }
    forall i | 0 <= i < |parts|
      ensures parts[i] == ""
    {
      if s != "" {
        assert parts[i] !in Filter(parts, (t: string) => t != "");
      }
    }
    var pieces := TrimmedPieces(s);
    forall i | 0 <= i < |pieces|
      ensures pieces[i] == ""
    {
      TrimAllAt(parts, i);
    }
    FilterKeepsNone(pieces, (t: string) => t != "");
  }

  /** A field of blanks shows neither a preview nor the placeholder. */
  lemma BlankImagesShowNothing()
    ensures Preview(Typed(" ")) == [] && !ShowsPlaceholder(Typed(" "))
  {
    SplitWithoutSeparator(" ", ',');
    assert " " in Filter([" "], (t: string) => t != "");
    var pieces := TrimmedPieces(" ");
    assert pieces == [""] by {
      TrimAllAt([" "], 0);
      assert Trim(" ") == "";
    }
    FilterKeepsNone(pieces, (t: string) => t != "");
  }

  // ---- Submissions ----

  /** `x ? Number(x) : undefined` */
  function NumberField(s: string, number: string -> real): Option<real> {
    if s != "" then Some(number(s)) else None
  }

  datatype MallForm = MallForm(name: string, location: string, rating: string, totalReviews: string, tags: string)

  datatype MallBody = MallBody(mongoId: Option<string>, name: string, location: string, rating: Option<real>,
                               totalReviews: Option<real>, tags: seq<string>)

  /** `editMall && editMall._id`: an edit has a non-empty record id. */
  function Address(base: string, editId: Option<string>): (r: (string, string))
    ensures Truthy(editId) ==> r == ("PUT", base + "/" + editId.value)
    ensures !Truthy(editId) ==> r == ("POST", base)
  {
    if Truthy(editId) then ("PUT", base + "/" + editId.value) else ("POST", base)
  }

  /** The mall dialog's save: a PUT to the mall's address when a mall is
      being edited, a POST otherwise; the id sent is the edited mall's,
      the numbers are read from their text, and the tags are cut at the
      commas with empty ones kept. */
  function SaveMall(form: MallForm, editId: Option<string>, number: string -> real): (r: Submission<MallBody>)
    ensures r.Send?
    ensures r.verb == "PUT" <==> Truthy(editId)
    ensures r.url == (if Truthy(editId) then MallsUrl + "/" + editId.value else MallsUrl)
    ensures r.body.mongoId == editId && r.body.name == form.name && r.body.location == form.location
    ensures r.body.rating.Some? <==> form.rating != ""
    ensures r.body.rating.Some? ==> r.body.rating.value == number(form.rating)
    ensures r.body.tags == [] <==> form.tags == ""
    ensures forall i :: 0 <= i < |r.body.tags| ==> CleanPiece(r.body.tags[i])
  {
    var (verb, url) := Address(MallsUrl, editId);
    Send(verb, url, MallBody(editId, form.name, form.location, NumberField(form.rating, number),
                             NumberField(form.totalReviews, number), CommaTags(form.tags)))
  }

  /** `handleAddMall`: always a POST of the form, with no id. */
  function AddMall(form: MallForm, number: string -> real): (r: Submission<MallBody>)
    ensures r == SaveMall(form, None, number)
    ensures r.verb == "POST" && r.url == MallsUrl && r.body.mongoId == None
  {
    Send("POST", MallsUrl, MallBody(None, form.name, form.location, NumberField(form.rating, number),
                                    NumberField(form.totalReviews, number), CommaTags(form.tags)))
  }

  datatype ShopForm = ShopForm(name: string, rating: string, totalReviews: string, images: ListField, tags: string,
                               mallId: string)

  datatype ShopBody = ShopBody(mongoId: Option<string>, name: string, mallId: string, rating: Option<real>,
                               totalReviews: Option<real>, images: seq<string>, tags: seq<string>)

  function ShopBodyOf(form: ShopForm, mongoId: Option<string>, number: string -> real): ShopBody {
    ShopBody(mongoId, form.name, form.mallId, NumberField(form.rating, number), NumberField(form.totalReviews, number),
             ParsedList(form.images), CommaTags(form.tags))
  }

  /** `!mallId || mallId.length !== 24` */
  predicate MallIdAccepted(mallId: string) {
    mallId != "" && |mallId| == 24
  }

  /** `handleAddShop`: nothing without a selected mall; a refusal unless
      the mall id is 24 characters long; otherwise a POST of the shop. */
  function AddShop(mallSelected: bool, form: ShopForm, number: string -> real): (r: Submission<ShopBody>)
    ensures !mallSelected <==> r.Ignored?
    ensures r.Refused? <==> mallSelected && |form.mallId| != 24
    ensures r.Refused? ==> r.message == InvalidMall
    ensures r.Send? ==> r.verb == "POST" && r.url == ShopsUrl && |r.body.mallId| == 24 && r.body.mongoId == None
    ensures r.Send? && form.images.Typed? ==> forall i :: 0 <= i < |r.body.images| ==> CleanPiece(r.body.images[i])
  {
    if !mallSelected then Ignored
    else if !MallIdAccepted(form.mallId) then Refused(InvalidMall)
    else Send("POST", ShopsUrl, ShopBodyOf(form, None, number))
  }

  /** The shop dialog's save: a PUT when a shop is edited, a POST
      otherwise; unlike `handleAddShop` it checks no mall id, so a shop
      with any mall id, the empty one included, is sent. */
  function SaveShop(form: ShopForm, editId: Option<string>, number: string -> real): (r: Submission<ShopBody>)
    ensures r.Send?
    ensures r.verb == "PUT" <==> Truthy(editId)
    ensures r.url == (if Truthy(editId) then ShopsUrl + "/" + editId.value else ShopsUrl)
    ensures r.body.mongoId == editId && r.body.mallId == form.mallId
    ensures r.body.tags == [] <==> form.tags == ""
  {
    var (verb, url) := Address(ShopsUrl, editId);
    Send(verb, url, ShopBodyOf(form, editId, number))
  }

  datatype ProductForm = ProductForm(id: Option<string>, name: string, price: string, originalPrice: string,
                                     images: ListField, tags: string, shopId: string, inStock: Option<bool>,
                                     sizes: ListField)

  datatype ProductBody = ProductBody(id: Option<string>, mongoId: Option<string>, name: string, price: Option<real>,
                                     originalPrice: Option<real>, images: seq<string>, tags: seq<string>,
                                     shopId: string, inStock: bool, sizes: seq<string>)

  /** The product dialog's save: refused when the name, the price or the
      shop is missing; an edit is a PUT keeping the form's `id` and sending
      the edited product's `_id`, a creation is a POST with both removed;
      the tags, and images or sizes given as text, are the clean non-empty
      pieces; the stock flag is true unless it was unticked. */
  function SaveProduct(form: ProductForm, editId: Option<string>, number: string -> real): (r: Submission<ProductBody>)
    ensures !r.Ignored?
    ensures r.Refused? <==> form.name == "" || form.price == "" || form.shopId == ""
    ensures r.Refused? ==> r.message == MissingFields
    ensures r.Send? ==> r.body.name == form.name && r.body.shopId == form.shopId && r.body.price == Some(number(form.price))
    ensures r.Send? ==> (r.verb == "PUT" <==> Truthy(editId))
    ensures r.Send? && Truthy(editId) ==>
      r.url == ProductsUrl + "/" + editId.value && r.body.mongoId == editId && r.body.id == form.id
    ensures r.Send? && !Truthy(editId) ==> r.url == ProductsUrl && r.body.mongoId == None && r.body.id == None
    ensures r.Send? ==> (r.body.inStock <==> form.inStock != Some(false))
    ensures r.Send? ==> forall i :: 0 <= i < |r.body.tags| ==> r.body.tags[i] != "" && CleanPiece(r.body.tags[i])
    ensures r.Send? && form.sizes.Items? ==> r.body.sizes == form.sizes.items
  {
    if form.name == "" || form.price == "" || form.shopId == "" then Refused(MissingFields)
    else
      var editing := Truthy(editId);
      var (verb, url) := Address(ProductsUrl, editId);
      Send(verb, url, ProductBody(if editing then form.id else None, if editing then editId else None, form.name,
                                  NumberField(form.price, number), NumberField(form.originalPrice, number),
                                  ParsedList(form.images), CleanList(form.tags), form.shopId,
                                  form.inStock.GetOr(true), ParsedList(form.sizes)))
  }

  /** The size check boxes: ticking adds the size to the list (a text
      field becomes a list of that size alone), unticking removes every
      copy of it; the other sizes stay. */
  function CheckSize(sizes: ListField, size: string, checked: bool): (r: ListField)
    ensures r.Items?
    ensures size in r.items <==> checked
    ensures sizes.Items? ==> forall s :: s != size ==> (s in r.items <==> s in sizes.items)
    ensures sizes.Typed? ==> r.items == if checked then [size] else []
  {
    if checked then Items(if sizes.Items? then sizes.items + [size] else [size])
    else Items(if sizes.Items? then RemoveAll(sizes.items, size) else [])
  }

  // ---- Table search ----

  /** A table's search: the rows whose name contains the search text,
      case aside, in their order. */
  function RowsNamed<T(!new)>(rows: seq<T>, name: T -> string, search: string): (r: seq<T>)
    ensures IsSubsequence(r, rows)
    ensures forall x :: x in r <==> x in rows && ContainsIgnoreCase(name(x), search)
    ensures forall x {:trigger multiset(r)[x]} :: multiset(r)[x] == if ContainsIgnoreCase(name(x), search) then multiset(rows)[x] else 0
  {
    var keep := (x: T) => ContainsIgnoreCase(name(x), search);
    FilterIsSubsequence(rows, keep);
    FilterCount(rows, keep);
    Filter(rows, keep)
  }

  /** An empty search lists every row. */
  lemma EmptySearchListsAll<T(!new)>(rows: seq<T>, name: T -> string)
    ensures RowsNamed(rows, name, "") == rows
  {
    forall x | x in rows
      ensures ContainsIgnoreCase(name(x), "")
    {
      EmptyQueryMatches(name(x));
    }
    FilterKeepsAll(rows, (x: T) => ContainsIgnoreCase(name(x), ""));
  }
}
