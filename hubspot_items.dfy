/** Normalisation of one HubSpot CRM record into the common
    `IntegrationItem` shape: the prefixed id, the display name chosen per
    object type with its fallbacks, and the two timestamps. */
module HubSpotItems {
  import opened Json
  import opened Text

  /** A record of the HubSpot CRM v3 API: its `id` and its `properties`
      object (a record without `properties` has the empty map here, which is
      what `get('properties', {})` yields). */
  datatype HubSpotObject = HubSpotObject(id: Value, properties: Object)

  /** The integration-neutral record every integration hands to the UI. */
  datatype IntegrationItem = IntegrationItem(
    id: string,
    name: Value,
    itemType: string,
    creationTime: Value,
    lastModifiedTime: Value,
    parentId: Value,
    parentPathOrName: string)

  /** The item types the four HubSpot endpoints produce. */
  const KnownTypes: seq<string> := ["contact", "company", "deal", "ticket"]

  const IdPrefix: string := "hubspot_"

  /** `f'hubspot_{item_type}_{item_id}'`. */
  function ItemId(itemType: string, id: Value): string {
    IdPrefix + itemType + "_" + Render(id)
  }

  /** `f"{firstname} {lastname}"` before stripping, where a missing part is
      `''` and a part holding null prints as `None`. */
  function ContactParts(props: Object): string {
    Render(GetOr(props, "firstname", Str(""))) + " " + Render(GetOr(props, "lastname", Str("")))
  }

  /** The property that names a company, a deal or a ticket. */
  function NameKey(itemType: string): string {
    if itemType == "company" then "name"
    else if itemType == "deal" then "dealname"
    else "subject"
  }

  /** The word that starts the fallback name of a company, a deal or a ticket. */
  function Label(itemType: string): string {
    if itemType == "company" then "Company"
    else if itemType == "deal" then "Deal"
    else "Ticket"
  }

  /** The display name: the stripped full name of a contact, else its email,
      else `Contact {id}`; the named property of a company, deal or ticket,
      else `{Label} {id}`; `{Capitalized type} {id}` for any other type. */
  function ItemName(props: Object, itemType: string, id: Value): Value {
    if itemType == "contact" then
      var full := Strip(ContactParts(props));
      if full != "" then Str(full) else GetOr(props, "email", Str("Contact " + Render(id)))
    else if itemType in {"company", "deal", "ticket"} then
      GetOr(props, NameKey(itemType), Str(Label(itemType) + " " + Render(id)))
    else
      Str(Capitalize(itemType) + " " + Render(id))
  }

  /** `create_hubspot_integration_item`: total on every record and type.
      The lemmas below state what each field holds. */
  function CreateItem(obj: HubSpotObject, itemType: string): (item: IntegrationItem)
    ensures item.itemType == itemType && item.parentId == Null && item.parentPathOrName == "HubSpot"
  {
    var props := obj.properties;
    IntegrationItem(
      ItemId(itemType, obj.id),
      ItemName(props, itemType, obj.id),
      itemType,
      Get(props, "createdate"),
      Or(Get(props, "lastmodifieddate"), Get(props, "hs_lastmodifieddate")),
      Null,
      "HubSpot")
  }

  /** The fields every item has whatever its type: the prefixed id, the
      type, no parent id and the parent name `HubSpot`; the creation time is
      `createdate` as it is (None when absent), and the modification time is
      `lastmodifieddate` when that is truthy, else `hs_lastmodifieddate`
      (so it is truthy exactly when one of the two is). */
  lemma CreateItemFields(obj: HubSpotObject, itemType: string)
    ensures var item := CreateItem(obj, itemType);
      && item.id == IdPrefix + itemType + "_" + Render(obj.id)
      && item.itemType == itemType
      && item.parentId == Null && item.parentPathOrName == "HubSpot"
      && item.creationTime == Get(obj.properties, "createdate")
      && (Truthy(item.lastModifiedTime) <==>
            Truthy(Get(obj.properties, "lastmodifieddate")) || Truthy(Get(obj.properties, "hs_lastmodifieddate")))
      && (Truthy(Get(obj.properties, "lastmodifieddate")) ==>
            item.lastModifiedTime == obj.properties["lastmodifieddate"])
      && (!Truthy(Get(obj.properties, "lastmodifieddate")) ==>
            item.lastModifiedTime == Get(obj.properties, "hs_lastmodifieddate"))
  {
  }

  /** A contact is named by its stripped full name unless both name parts are
      whitespace; only then by `email`, and by `Contact {id}` only when the
      record has no `email` key at all (an email holding null or `''` is
      kept). */
  lemma ContactName(obj: HubSpotObject)
    ensures var name := CreateItem(obj, "contact").name; var parts := ContactParts(obj.properties);
      && (!AllSpace(parts) ==>
            name.Str? && name.s != "" && name.s == Strip(parts)
            && !IsSpace(name.s[0]) && !IsSpace(name.s[|name.s| - 1]))
      && (AllSpace(parts) && "email" in obj.properties ==> name == obj.properties["email"])
      && (AllSpace(parts) && "email" !in obj.properties ==> name == Str("Contact " + Render(obj.id)))
  {
    StripSpec(ContactParts(obj.properties));
  }

  /** A company, deal or ticket takes its name from `name`, `dealname` or
      `subject` whenever that key is present, whatever it holds; the
      fallback `Company {id}`, `Deal {id}` or `Ticket {id}` applies only when
      the key is absent. */
  lemma NamedByProperty(obj: HubSpotObject, itemType: string)
    requires itemType in {"company", "deal", "ticket"}
    ensures var name := CreateItem(obj, itemType).name; var key := NameKey(itemType);
      && (key in obj.properties ==> name == obj.properties[key])
      && (key !in obj.properties ==> name == Str(Label(itemType) + " " + Render(obj.id)))
  {
  }

  /** Any type outside the four known ones is named
      `{item_type.capitalize()} {id}`, whatever the properties hold; the
      empty type gives ` {id}`. */
  lemma NamedByType(obj: HubSpotObject, itemType: string)
    requires itemType !in KnownTypes
    ensures var name := CreateItem(obj, itemType).name;
      && name.Str? && |name.s| == |itemType| + 1 + |Render(obj.id)|
      && name.s[..|itemType|] == Capitalize(itemType)
      && name.s[|itemType|] == ' '
      && name.s[|itemType| + 1..] == Render(obj.id)
  {
  }

  /** Finds the known type `t` with `rest == t + "_" + id`, trying `types`
      in order. */
  function SplitType(rest: string, types: seq<string>): Option<(string, string)>
    decreases |types|
  {
    if types == [] then None
    else
      var p := types[0] + "_";
      if |p| <= |rest| && rest[..|p|] == p then Some((types[0], rest[|p|..]))
      else SplitType(rest, types[1..])
  }

  /** Reads an item id back into its type and its rendered HubSpot id. */
  function ParseItemId(s: string): Option<(string, string)> {
    if |s| >= |IdPrefix| && s[..|IdPrefix|] == IdPrefix then SplitType(s[|IdPrefix|..], KnownTypes)
    else None
  }

  /** A known type followed by `_` is found by `SplitType`, the earlier
      candidates being no prefix of it. */
  lemma {:induction false} SplitKnownType(itemType: string, tail: string)
    requires itemType in KnownTypes
    ensures SplitType(itemType + "_" + tail, KnownTypes) == Some((itemType, tail))
  {
    var rest := itemType + "_" + tail;
    var p := itemType + "_";
    assert rest[..|p|] == p && rest[|p|..] == tail;
    var ts := KnownTypes;
    if itemType != "contact" {
      assert !(8 <= |rest| && rest[..8] == "contact_") by {
        if 8 <= |rest| && itemType == "company" { assert rest[..8][3] == 'p'; }
        else if 8 <= |rest| { assert rest[..8][0] != 'c'; }
      }
      assert SplitType(rest, ts) == SplitType(rest, ts[1..]);
      if itemType != "company" {
        assert rest[0] != 'c';
        assert SplitType(rest, ts[1..]) == SplitType(rest, ts[2..]);
        if itemType != "deal" {
          assert rest[0] != 'd';
          assert SplitType(rest, ts[2..]) == SplitType(rest, ts[3..]);
        }
      }
    }
  }

  /** For the four types the endpoints produce, the item id determines the
      type and the rendered HubSpot id. */
  lemma {:induction false} ItemIdRoundTrip(itemType: string, id: Value)
    requires itemType in KnownTypes
    ensures ParseItemId(ItemId(itemType, id)) == Some((itemType, Render(id)))
  {
    var rest := itemType + "_" + Render(id);
    assert ItemId(itemType, id) == IdPrefix + rest;
    assert (IdPrefix + rest)[|IdPrefix|..] == rest;
    SplitKnownType(itemType, Render(id));
  }

  /** Two items of known types with the same id have the same type and the
      same rendered HubSpot id. */
  lemma ItemIdInjective(t1: string, id1: Value, t2: string, id2: Value)
    requires t1 in KnownTypes && t2 in KnownTypes
    requires ItemId(t1, id1) == ItemId(t2, id2)
    ensures t1 == t2 && Render(id1) == Render(id2)
  {
    ItemIdRoundTrip(t1, id1);
    ItemIdRoundTrip(t2, id2);
  }
}
