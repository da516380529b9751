/** How the first generation (js/app.js) turns the catalog into line items, in
    the order the category page lists them, and how it builds their ids. Absent
    arrays of the catalog are modelled as empty sequences. For the arrays the
    source guards with `if (…)` (subcategories, services, items, packages and
    studios of a category) that is what the page does; the nested arrays and the
    mannequin and model-shoot blocks are iterated unguarded, so an absent one
    throws in the source, which this model does not capture. */
module CatalogV1 {
  import opened Common
  import opened Cart
  import opened Slugs
  import opened PricingV1

  /** A package of a subcategory; it carries its own id. */
  datatype Package = Package(id: string, name: string, price: real)
  datatype Subcategory = Subcategory(name: string, packages: seq<Package>)

  /** A mannequin variant (`variant.method`, the shooting technique) with its price. */
  datatype Variant = Variant(technique: string, price: real)

  /** An entry of `category.services`. The same array is read by the generic
      block (id, name, price), by the mannequin block (type, variants) and by the
      model-shoot block (type, price); `id` may be absent. */
  datatype CatalogService = CatalogService(id: Option<string>, name: string, kind: string, price: real, variants: seq<Variant>)

  /** An entry of `category.items`, labelled by its `category` or else its `type`;
      an absent label is the empty string. */
  datatype CatalogItem = CatalogItem(category: string, kind: string, price: real)

  /** A name and a price: textile tariffs, postproduction items, additional services. */
  datatype Priced = Priced(name: string, price: real)

  datatype TextilePackage = TextilePackage(category: string, tariffs: seq<Priced>)

  datatype Studio = Studio(name: string, weekdayHour: real, weekendHour: real, weekdayShift: real, weekendShift: real)

  datatype Category = Category(
    id: string,
    subcategories: seq<Subcategory>,
    services: seq<CatalogService>,
    items: seq<CatalogItem>,
    packages: seq<TextilePackage>,
    studios: seq<Studio>)

  datatype PostGroup = PostGroup(category: string, items: seq<Priced>)

  /** JavaScript's string conversion of a possibly absent property. */
  function JsString(s: Option<string>): string {
    match s
    case Some(v) => v
    case None => "undefined"
  }

  /** `item.category || item.type`. */
  function ItemLabel(it: CatalogItem): string {
    if it.category != "" then it.category else it.kind
  }

  // ---------------------------------------------------------------- the blocks of `renderCategoryServices`

  /** A package keeps its own id. */
  function PackageOffer(pkg: Package): Offer<Service> {
    Offer(pkg.id, Service(pkg.name, pkg.price))
  }

  /** The number of packages over all subcategories. */
  function PackageCount(subs: seq<Subcategory>): nat {
    if subs == [] then 0 else |subs[0].packages| + PackageCount(subs[1..])
  }

  /** The packages block of a category page. */
  function PackageOffers(subs: seq<Subcategory>): (r: seq<Offer<Service>>)
    ensures |r| == PackageCount(subs)
  {
    if subs == [] then []
    else
      var ps := subs[0].packages;
      seq(|ps|, k requires 0 <= k < |ps| => PackageOffer(ps[k])) + PackageOffers(subs[1..])
  }

  /** Generic services: id `category.id + '_' + service.id`, not slugged. */
  function ServiceOffers(catId: string, services: seq<CatalogService>): (r: seq<Offer<Service>>)
    ensures |r| == |services|
  {
    seq(|services|, k requires 0 <= k < |services| =>
      Offer(catId + "_" + JsString(services[k].id), Service(services[k].name, services[k].price)))
  }

  function ItemOffers(catId: string, items: seq<CatalogItem>): (r: seq<Offer<Service>>)
    ensures |r| == |items|
  {
    seq(|items|, k requires 0 <= k < |items| =>
      Offer(catId + "_" + Slug(ItemLabel(items[k])), Service(ItemLabel(items[k]), items[k].price)))
  }

  function MannequinOffer(s: CatalogService, v: Variant): Offer<Service> {
    Offer(Slug("mannequin_" + s.kind + "_" + v.technique), Service(s.kind + " - " + v.technique, v.price))
  }

  /** One line item per variant of every service. */
  function MannequinOffers(services: seq<CatalogService>): seq<Offer<Service>> {
    if services == [] then []
    else
      var s := services[0];
      seq(|s.variants|, k requires 0 <= k < |s.variants| => MannequinOffer(s, s.variants[k]))
      + MannequinOffers(services[1..])
  }

  function TextileOffers(catId: string, pkgs: seq<TextilePackage>): seq<Offer<Service>> {
    if pkgs == [] then []
    else
      var p := pkgs[0];
      seq(|p.tariffs|, k requires 0 <= k < |p.tariffs| =>
        Offer(Slug(catId + "_" + p.category + "_" + p.tariffs[k].name), Service(p.tariffs[k].name, p.tariffs[k].price)))
      + TextileOffers(catId, pkgs[1..])
  }

  function ModelShootOffers(services: seq<CatalogService>): (r: seq<Offer<Service>>)
    ensures |r| == |services|
  {
    seq(|services|, k requires 0 <= k < |services| =>
      Offer(Slug("model_" + services[k].kind), Service(services[k].kind, services[k].price)))
  }

  /** The four rates of a studio, in page order. */
  function StudioOffers(st: Studio): seq<Offer<Service>> {
    [ Offer(Slug("studio_" + st.name + "_weekday_hour"), Service(st.name + " - Будни (час)", st.weekdayHour)),
      Offer(Slug("studio_" + st.name + "_weekend_hour"), Service(st.name + " - Выходные (час)", st.weekendHour)),
      Offer(Slug("studio_" + st.name + "_weekday_shift"), Service(st.name + " - Будни (смена 6ч)", st.weekdayShift)),
      Offer(Slug("studio_" + st.name + "_weekend_shift"), Service(st.name + " - Выходные (смена 6ч)", st.weekendShift)) ]
  }

  function StudiosOffers(studios: seq<Studio>): (r: seq<Offer<Service>>)
    ensures |r| == 4 * |studios|
  {
    if studios == [] then [] else StudioOffers(studios[0]) + StudiosOffers(studios[1..])
  }

  /** The three blocks every category page starts with: packages, generic
      services and items. */
  function GenericOffers(c: Category): seq<Offer<Service>> {
    PackageOffers(c.subcategories) + ServiceOffers(c.id, c.services) + ItemOffers(c.id, c.items)
  }

  /** `renderCategoryServices`: the line items of a category page, block after
      block. A `mannequin` or `model_shoot` category also runs its services
      through the generic block, so each of its services is listed more than
      once. */
  function LineItems(c: Category): seq<Offer<Service>> {
    GenericOffers(c)
    + (if c.id == "mannequin" then MannequinOffers(c.services) else [])
    + TextileOffers(c.id, c.packages)
    + (if c.id == "model_shoot" then ModelShootOffers(c.services) else [])
    + StudiosOffers(c.studios)
  }

  /** A postproduction item: id `post_<group>_<name>`, slugged as a whole, which
      slugs the group and the name apart. */
  function PostOffer(group: string, it: Priced): (o: Offer<Service>)
    ensures o.id == "post_" + Slug(group) + "_" + Slug(it.name) && NoWhitespace(o.id)
    ensures o.item == Service(it.name, it.price)
  {
    SlugAppend("post_" + group + "_", it.name);
    SlugTemplate("post_", group, "_");
    SlugShape("post_" + group + "_" + it.name);
    Offer(Slug("post_" + group + "_" + it.name), Service(it.name, it.price))
  }

  /** The number of items over all postproduction groups. */
  function PostItemCount(groups: seq<PostGroup>): nat {
    if groups == [] then 0 else |groups[0].items| + PostItemCount(groups[1..])
  }

  /** `renderPostproduction`: one line item per item of every group, and nothing
      else; no id has whitespace. */
  function PostproductionOffers(groups: seq<PostGroup>): (r: seq<Offer<Service>>)
    ensures |r| == PostItemCount(groups)
    ensures forall j, i :: 0 <= j < |groups| && 0 <= i < |groups[j].items| ==>
      PostOffer(groups[j].category, groups[j].items[i]) in r
    ensures forall o :: o in r ==>
      exists j, i :: 0 <= j < |groups| && 0 <= i < |groups[j].items| && o == PostOffer(groups[j].category, groups[j].items[i])
    ensures forall k :: 0 <= k < |r| ==> NoWhitespace(r[k].id)
  {
    if groups == [] then []
    else
      var g := groups[0];
      var head := seq(|g.items|, k requires 0 <= k < |g.items| => PostOffer(g.category, g.items[k]));
      var tail := PostproductionOffers(groups[1..]);
      assert forall j :: 1 <= j < |groups| ==> groups[j] == groups[1..][j - 1];
      assert forall k :: 0 <= k < |g.items| ==> head[k] == PostOffer(groups[0].category, groups[0].items[k]);
      head + tail
  }

  /** `renderAdditionalServices`: id `add_<name>`, slugged. */
  function AdditionalOffers(services: seq<Priced>): (r: seq<Offer<Service>>)
    ensures |r| == |services|
    ensures forall k :: 0 <= k < |r| ==> r[k].id == "add_" + Slug(services[k].name) && NoWhitespace(r[k].id)
  {
    seq(|services|, k requires 0 <= k < |services| =>
      AdditionalOffer(services[k]))
  }

  function AdditionalOffer(s: Priced): (o: Offer<Service>)
    ensures o.id == "add_" + Slug(s.name) && NoWhitespace(o.id)
  {
    SlugAppend("add_", s.name);
    SlugOfClean("add_");
    SlugShape("add_" + s.name);
    Offer(Slug("add_" + s.name), Service(s.name, s.price))
  }

  // ---------------------------------------------------------------- ids

  /** The packages block holds one line item per package of every subcategory,
      each under the package's own id, and nothing else. */
  lemma {:induction false} PackagesListed(subs: seq<Subcategory>)
    ensures var r := PackageOffers(subs);
      && |r| == PackageCount(subs)
      && (forall j, k :: 0 <= j < |subs| && 0 <= k < |subs[j].packages| ==> PackageOffer(subs[j].packages[k]) in r)
      && (forall o :: o in r ==>
            exists j, k :: 0 <= j < |subs| && 0 <= k < |subs[j].packages| && o == PackageOffer(subs[j].packages[k]))
  {
    if subs != [] {
      PackagesListed(subs[1..]);
      var head := seq(|subs[0].packages|, k requires 0 <= k < |subs[0].packages| => PackageOffer(subs[0].packages[k]));
      assert PackageOffers(subs) == head + PackageOffers(subs[1..]);
      assert forall j :: 1 <= j < |subs| ==> subs[j] == subs[1..][j - 1];
      assert forall k :: 0 <= k < |head| ==> head[k] == PackageOffer(subs[0].packages[k]);
    }
  }

  /** A page lists its packages block first, then the generic services under
      `<category>_<service id>` (unslugged, `undefined` for a missing id), then
      the items under `<category>_<slugged label>`, and ends with four line items
      per studio; in a category other than `mannequin` and `model_shoot` only the
      textile tariffs come between the items and the studios. */
  lemma LineItemsLayout(c: Category)
    ensures var r := LineItems(c); var p := |PackageOffers(c.subcategories)|;
      && r[..p] == PackageOffers(c.subcategories)
      && |r| >= 4 * |c.studios|
      && r[|r| - 4 * |c.studios|..] == StudiosOffers(c.studios)
      && (forall k :: 0 <= k < |c.services| ==> r[p + k].id == c.id + "_" + JsString(c.services[k].id))
      && (forall k :: 0 <= k < |c.items| ==>
            r[p + |c.services| + k].id == c.id + "_" + Slug(ItemLabel(c.items[k])))
    ensures c.id != "mannequin" && c.id != "model_shoot" ==>
      var r := LineItems(c); var q := |PackageOffers(c.subcategories)| + |c.services| + |c.items|;
      && |r| == q + |TextileOffers(c.id, c.packages)| + 4 * |c.studios|
      && r[q..|r| - 4 * |c.studios|] == TextileOffers(c.id, c.packages)
  {
    LineItemsEnds(c);
    LineItemsFrontIds(c);
    if c.id != "mannequin" && c.id != "model_shoot" {
      LineItemsTextile(c);
    }
  }

  /** The page starts with the packages block and ends with the studios block. */
  lemma LineItemsEnds(c: Category)
    ensures var r := LineItems(c);
      && r[..|PackageOffers(c.subcategories)|] == PackageOffers(c.subcategories)
      && |r| >= 4 * |c.studios|
      && r[|r| - 4 * |c.studios|..] == StudiosOffers(c.studios)
  {
  }

  /** The generic services and the items follow the packages, under their ids. */
  lemma LineItemsFrontIds(c: Category)
    ensures var r := LineItems(c); var p := |PackageOffers(c.subcategories)|;
      && (forall k :: 0 <= k < |c.services| ==> r[p + k].id == c.id + "_" + JsString(c.services[k].id))
      && (forall k :: 0 <= k < |c.items| ==>
            r[p + |c.services| + k].id == c.id + "_" + Slug(ItemLabel(c.items[k])))
  {
    GenericIds(c);
    var front := GenericOffers(c);
    assert forall i :: 0 <= i < |front| ==> LineItems(c)[i] == front[i];
  }

  /** The ids of the generic services and of the items within the leading blocks. */
  lemma GenericIds(c: Category)
    ensures var g := GenericOffers(c); var p := |PackageOffers(c.subcategories)|;
      && |g| == p + |c.services| + |c.items|
      && (forall k :: 0 <= k < |c.services| ==> g[p + k].id == c.id + "_" + JsString(c.services[k].id))
      && (forall k :: 0 <= k < |c.items| ==>
            g[p + |c.services| + k].id == c.id + "_" + Slug(ItemLabel(c.items[k])))
  {
  }

  /** Outside the mannequin and model-shoot categories, the textile tariffs are
      all that lies between the items and the studios. */
  lemma LineItemsTextile(c: Category)
    requires c.id != "mannequin" && c.id != "model_shoot"
    ensures var r := LineItems(c); var q := |PackageOffers(c.subcategories)| + |c.services| + |c.items|;
      && |r| == q + |TextileOffers(c.id, c.packages)| + 4 * |c.studios|
      && r[q..|r| - 4 * |c.studios|] == TextileOffers(c.id, c.packages)
  {
  }

  /** Each studio yields four line items whose ids are the slugged studio name
      between `studio_` and the four distinct rate suffixes; so the four ids are
      pairwise different. */
  lemma StudioIds(st: Studio)
    ensures var r := StudioOffers(st);
      && |r| == 4
      && r[0].id == "studio_" + Slug(st.name) + "_weekday_hour"
      && r[1].id == "studio_" + Slug(st.name) + "_weekend_hour"
      && r[2].id == "studio_" + Slug(st.name) + "_weekday_shift"
      && r[3].id == "studio_" + Slug(st.name) + "_weekend_shift"
      && forall i, j :: 0 <= i < j < 4 ==> r[i].id != r[j].id
  {
    var suffixes := ["_weekday_hour", "_weekend_hour", "_weekday_shift", "_weekend_shift"];
    var p := "studio_" + Slug(st.name);
    forall k | 0 <= k < 4 ensures StudioOffers(st)[k].id == p + suffixes[k] {
      SlugTemplate("studio_", st.name, suffixes[k]);
    }
    forall i, j | 0 <= i < j < 4 ensures p + suffixes[i] != p + suffixes[j] {
      assert suffixes[i][5] != suffixes[j][5] || |suffixes[i]| != |suffixes[j]|;
      PrefixDistinct(p, suffixes[i], suffixes[j]);
    }
  }

  /** A `mannequin` category lists a service without its own id twice: once by
      the generic block as `mannequin_undefined`, once per variant by the
      mannequin block, and the two ids differ. */
  lemma MannequinListedTwice(s: CatalogService, v: Variant)
    requires s.id == None && s.variants == [v]
    ensures var r := LineItems(Category("mannequin", [], [s], [], [], []));
      && |r| == 2
      && r[0].id == "mannequin_undefined"
      && r[1].id == "mannequin_" + Slug(s.kind) + "_" + Slug(v.technique)
      && r[0].id != r[1].id
  {
    var r := LineItems(Category("mannequin", [], [s], [], [], []));
    MannequinLineItems(s, v);
    assert r[0].id == "mannequin_undefined";
    MannequinId(s, v);
    var tail := Slug(s.kind) + "_" + Slug(v.technique);
    assert r[1].id == "mannequin_" + tail;
    assert "mannequin_" + tail == "mannequin_" + Slug(s.kind) + "_" + Slug(v.technique);
    NotUndefined(Slug(s.kind), Slug(v.technique));
    PrefixDistinct("mannequin_", "undefined", tail);
    assert "mannequin_" + "undefined" == "mannequin_undefined";
  }

  /** The mannequin block's id slugs the service type and the technique apart. */
  lemma MannequinId(s: CatalogService, v: Variant)
    ensures MannequinOffer(s, v).id == "mannequin_" + (Slug(s.kind) + "_" + Slug(v.technique))
  {
    var head := "mannequin_" + s.kind + "_";
    calc {
      MannequinOffer(s, v).id;
      Slug(head + v.technique);
      { SlugAppend(head, v.technique); }
      Slug(head) + Slug(v.technique);
      { SlugTemplate("mannequin_", s.kind, "_"); }
      "mannequin_" + Slug(s.kind) + "_" + Slug(v.technique);
    }
  }

  /** The page of a `mannequin` category with one id-less, one-variant service:
      the generic block's item, then the mannequin block's. */
  lemma MannequinLineItems(s: CatalogService, v: Variant)
    requires s.id == None && s.variants == [v]
    ensures LineItems(Category("mannequin", [], [s], [], [], []))
         == [Offer("mannequin_undefined", Service(s.name, s.price)), MannequinOffer(s, v)]
  {
    assert MannequinOffers([s]) == [MannequinOffer(s, v)] by {
      assert [s][1..] == [];
    }
    assert PackageOffers([]) == [] && ItemOffers("mannequin", []) == [];
    assert TextileOffers("mannequin", []) == [] && StudiosOffers([]) == [];
    assert "mannequin" + "_" + JsString(s.id) == "mannequin_undefined";
    assert ServiceOffers("mannequin", [s]) == [Offer("mannequin_undefined", Service(s.name, s.price))];
  }

  /** No string with an underscore in it spells `undefined`. */
  lemma NotUndefined(a: string, b: string)
    ensures "undefined" != a + "_" + b
  {
    var t := a + "_" + b;
    if |a| < 9 {
      assert t[|a|] == '_';
      assert forall k :: 0 <= k < 9 ==> "undefined"[k] != '_';
    } else {
      assert |t| > 9;
    }
  }
}
