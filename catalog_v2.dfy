/** How the second generation (js/app-v2.js) turns the catalog into line items.
    Packages and services keep the id the catalog gives them; items, post-
    production, additional services and studios get built, slugged ids. Each
    studio is one line item. Absent arrays are empty sequences: that is what the
    page does for a category's guarded subcategories, services and items; the
    nested and top-level arrays are iterated unguarded, so an absent one throws
    in the source, which this model does not capture. */
module CatalogV2 {
  import opened Cart
  import opened Slugs
  import opened PricingV2

  /** A catalog entry that carries its own id. */
  datatype Listed = Listed(id: string, service: Service)

  datatype Subcategory = Subcategory(name: string, packages: seq<Listed>)

  /** An entry of `category.items`; its name is replaced by its label
      `item.category || item.type` (an absent label is the empty string). */
  datatype Item = Item(category: string, kind: string, service: Service)

  datatype Category = Category(id: string, subcategories: seq<Subcategory>, services: seq<Listed>, items: seq<Item>)

  datatype PostGroup = PostGroup(category: string, items: seq<Service>)

  function ItemLabel(it: Item): string {
    if it.category != "" then it.category else it.kind
  }

  function ListedOffers(entries: seq<Listed>): seq<Offer<Service>> {
    seq(|entries|, k requires 0 <= k < |entries| => Offer(entries[k].id, entries[k].service))
  }

  /** The number of packages over all subcategories. */
  function PackageCount(subs: seq<Subcategory>): nat {
    if subs == [] then 0 else |subs[0].packages| + PackageCount(subs[1..])
  }

  /** The packages block of a category page. */
  function PackageOffers(subs: seq<Subcategory>): (r: seq<Offer<Service>>)
    ensures |r| == PackageCount(subs)
  {
    if subs == [] then [] else ListedOffers(subs[0].packages) + PackageOffers(subs[1..])
  }

  /** `{...item, name: label, id: category.id + '_' + slug(label)}`. */
  function ItemOffer(catId: string, it: Item): Offer<Service> {
    Offer(catId + "_" + Slug(ItemLabel(it)), it.service.(name := ItemLabel(it)))
  }

  function ItemOffers(catId: string, items: seq<Item>): seq<Offer<Service>> {
    seq(|items|, k requires 0 <= k < |items| => ItemOffer(catId, items[k]))
  }

  /** `renderCategoryServices`: packages by subcategory, then services, then items. */
  function LineItems(c: Category): seq<Offer<Service>> {
    PackageOffers(c.subcategories) + ListedOffers(c.services) + ItemOffers(c.id, c.items)
  }

  /** A postproduction item: `{...item, id}` with id `post_<group>_<name>`,
      slugged as a whole, which slugs the group and the name apart. */
  function PostOffer(group: string, s: Service): (o: Offer<Service>)
    ensures o.id == "post_" + Slug(group) + "_" + Slug(s.name) && NoWhitespace(o.id)
    ensures o.item == s
  {
    SlugAppend("post_" + group + "_", s.name);
    SlugTemplate("post_", group, "_");
    SlugShape("post_" + group + "_" + s.name);
    Offer(Slug("post_" + group + "_" + s.name), s)
  }

  /** The number of items over all postproduction groups. */
  function PostItemCount(groups: seq<PostGroup>): nat {
    if groups == [] then 0 else |groups[0].items| + PostItemCount(groups[1..])
  }

  /** `renderPostproduction`: one line item per item of every group, and nothing
      else; no id has whitespace. */
  function PostproductionOffers(groups: seq<PostGroup>): (r: seq<Offer<Service>>)
    ensures |r| == PostItemCount(groups)
    ensures forall j, i :: 0 <= j < |groups| && 0 <= i < |groups[j].items| ==>
      PostOffer(groups[j].category, groups[j].items[i]) in r
    ensures forall o :: o in r ==>
      exists j, i :: 0 <= j < |groups| && 0 <= i < |groups[j].items| && o == PostOffer(groups[j].category, groups[j].items[i])
    ensures forall k :: 0 <= k < |r| ==> NoWhitespace(r[k].id)
  {
    if groups == [] then []
    else
      var g := groups[0];
      var head := seq(|g.items|, k requires 0 <= k < |g.items| => PostOffer(g.category, g.items[k]));
      var tail := PostproductionOffers(groups[1..]);
      assert forall j :: 1 <= j < |groups| ==> groups[j] == groups[1..][j - 1];
      assert forall k :: 0 <= k < |g.items| ==> head[k] == PostOffer(groups[0].category, groups[0].items[k]);
      head + tail
  }

  /** `renderAdditionalServices`: id `add_<name>`, slugged. */
  function AdditionalOffer(s: Service): (o: Offer<Service>)
    ensures o.id == "add_" + Slug(s.name) && NoWhitespace(o.id) && o.item == s
  {
    SlugTemplate("add_", s.name, "");
    assert "add_" + s.name + "" == "add_" + s.name;
    SlugShape("add_" + s.name);
    Offer(Slug("add_" + s.name), s)
  }

  /** `renderStudioRent`: one line item per studio, id `studio_<name>`, slugged. */
  function StudioOffer(s: Service): (o: Offer<Service>)
    ensures o.id == "studio_" + Slug(s.name) && NoWhitespace(o.id) && o.item == s
  {
    SlugTemplate("studio_", s.name, "");
    assert "studio_" + s.name + "" == "studio_" + s.name;
    SlugShape("studio_" + s.name);
    Offer(Slug("studio_" + s.name), s)
  }

  /** The packages block holds one line item per package of every subcategory,
      each under the package's own id, and nothing else. */
  lemma {:induction false} PackagesListed(subs: seq<Subcategory>)
    ensures var r := PackageOffers(subs);
      && |r| == PackageCount(subs)
      && (forall j, k :: 0 <= j < |subs| && 0 <= k < |subs[j].packages| ==> Offer(subs[j].packages[k].id, subs[j].packages[k].service) in r)
      && (forall o :: o in r ==>
            exists j, k :: 0 <= j < |subs| && 0 <= k < |subs[j].packages| && o == Offer(subs[j].packages[k].id, subs[j].packages[k].service))
  {
    if subs != [] {
      PackagesListed(subs[1..]);
      var head := ListedOffers(subs[0].packages);
      assert PackageOffers(subs) == head + PackageOffers(subs[1..]);
      assert forall j :: 1 <= j < |subs| ==> subs[j] == subs[1..][j - 1];
      assert forall k :: 0 <= k < |head| ==> head[k] == Offer(subs[0].packages[k].id, subs[0].packages[k].service);
    }
  }

  /** A category page lists its packages block, then its services and then its
      items, and nothing else: the services under their own ids and the items
      under the category id and their slugged label. */
  lemma LineItemsLayout(c: Category)
    ensures var r := LineItems(c); var p := |PackageOffers(c.subcategories)|;
      && r[..p] == PackageOffers(c.subcategories)
      && |r| == p + |c.services| + |c.items|
      && (forall k :: 0 <= k < |c.services| ==> r[p + k].id == c.services[k].id)
      && (forall k :: 0 <= k < |c.items| ==>
            r[p + |c.services| + k].id == c.id + "_" + Slug(ItemLabel(c.items[k])))
  {
  }

  /** Two items of one category get the same id exactly when their labels slug
      alike, so labels differing only in whitespace against underscores collide. */
  lemma ItemIdsCollide(catId: string, a: Item, b: Item)
    ensures ItemOffer(catId, a).id == ItemOffer(catId, b).id <==> Slug(ItemLabel(a)) == Slug(ItemLabel(b))
  {
    if Slug(ItemLabel(a)) != Slug(ItemLabel(b)) {
      PrefixDistinct(catId + "_", Slug(ItemLabel(a)), Slug(ItemLabel(b)));
    }
  }

  /** Studio ids follow the slugs of the studio names: two studios share an id
      exactly when their names slug alike. */
  lemma StudioIdsCollide(a: Service, b: Service)
    ensures StudioOffer(a).id == StudioOffer(b).id <==> Slug(a.name) == Slug(b.name)
  {
    if Slug(a.name) != Slug(b.name) {
      PrefixDistinct("studio_", Slug(a.name), Slug(b.name));
    }
  }
}
