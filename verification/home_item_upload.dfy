/** HomeItemResolver.java: a seller uploads or updates a home item. The
    home-item service it calls is read here as the repository it fronts:
    a map from id to item and a log of saves. */
module HomeItemMutations {
  import opened Wrappers
  import opened Store

  const DuplicateTitleMessage := "Seller has already uploaded an item. Duplicate uploads are not allowed."
  const DuplicateManufacturerMessage := "Duplicate item by the same manufacturer and seller is not allowed."
  const UploadedMessage := "Upload successful"
  const HomeItemNotFoundMessage := "Home item not found."
  const HomeItemUpdatedMessage := "Home item updated successfully."

  datatype UploadHomeItemResponse = UploadHomeItemResponse(success: bool, message: string, item: Option<HomeItem>)

  datatype HomeItemFields = HomeItemFields(title: string, description: string, totalQuantity: int, price: int,
                                           imageUrl: string, manufacturer: string, sellerId: string,
                                           itemType: string)

  function NewHomeItem(id: string, f: HomeItemFields): (h: HomeItem)
    ensures h.id == id && h.reviews == Some([])
    ensures h.title == f.title && h.manufacturer == f.manufacturer && h.sellerId == f.sellerId
  {
    HomeItem(id, f.title, f.itemType, f.description, f.totalQuantity, f.price, f.imageUrl,
             f.manufacturer, f.sellerId, Some([]))
  }

  /** `updateHomeItem`'s eight setters; id and reviews kept. */
  function Overwrite(h: HomeItem, f: HomeItemFields): (r: HomeItem)
    ensures r.id == h.id && r.reviews == h.reviews
    ensures r.title == f.title && r.description == f.description && r.totalQuantity == f.totalQuantity
    ensures r.price == f.price && r.imageUrl == f.imageUrl && r.manufacturer == f.manufacturer
    ensures r.sellerId == f.sellerId && r.itemType == f.itemType
  {
    h.(title := f.title, description := f.description, totalQuantity := f.totalQuantity,
       price := f.price, imageUrl := f.imageUrl, manufacturer := f.manufacturer,
       sellerId := f.sellerId, itemType := f.itemType)
  }

  /** The keys of the stored items a `findByManufacturer` query matches. */
  function ManufacturerMatches(items: map<string, HomeItem>, manufacturer: string): set<string> {
    set k | k in items && items[k].manufacturer == manufacturer
  }

  class HomeItemResolver {
    var homeItems: map<string, HomeItem>
    var saved: seq<HomeItem>

    ghost predicate Valid()
      reads this
    {
      IdsMatch(homeItems, HomeItemId)
    }

    constructor (initial: map<string, HomeItem>)
      requires IdsMatch(initial, HomeItemId)
      ensures Valid() && homeItems == initial && saved == []
    {
      homeItems := initial;
      saved := [];
    }

    /** `findByTitleAndSellerId`. */
    method FindByTitleAndSellerId(title: string, sellerId: string) returns (found: Lookup<HomeItem>)
      requires Valid()
      ensures found == NoMatch <==> TitleMatches(homeItems, HomeItemTitle, HomeItemSeller, title, sellerId) == {}
      ensures found == SeveralMatches <==> |TitleMatches(homeItems, HomeItemTitle, HomeItemSeller, title, sellerId)| >= 2
      ensures found.OneMatch? ==> TitleMatches(homeItems, HomeItemTitle, HomeItemSeller, title, sellerId) == {found.item.id}
                                  && homeItems[found.item.id] == found.item
    {
      found := FindOne(homeItems, TitleMatches(homeItems, HomeItemTitle, HomeItemSeller, title, sellerId));
    }

    /** `findByManufacturer`. */
    method FindByManufacturer(manufacturer: string) returns (found: Lookup<HomeItem>)
      requires Valid()
      ensures found == NoMatch <==> ManufacturerMatches(homeItems, manufacturer) == {}
      ensures found == SeveralMatches <==> |ManufacturerMatches(homeItems, manufacturer)| >= 2
      ensures found.OneMatch? ==> ManufacturerMatches(homeItems, manufacturer) == {found.item.id}
                                  && homeItems[found.item.id] == found.item
    {
      found := FindOne(homeItems, ManufacturerMatches(homeItems, manufacturer));
    }

    /** `uploadHomeItem`: the (title, sellerId) lookup comes first, then the
        manufacturer lookup, whose one item is refused when it has the same
        seller; only when both pass is a new item saved. A lookup that
        matches several items fails the whole request. `newId` is the id the
        database assigns. */
    method UploadHomeItem(f: HomeItemFields, newId: string) returns (answer: Answer<UploadHomeItemResponse>)
      requires Valid() && newId !in homeItems
      modifies this
      ensures Valid()
      ensures !(answer.Answered? && answer.response.success) ==>
                homeItems == old(homeItems) && saved == old(saved)
      ensures var titled := TitleMatches(old(homeItems), HomeItemTitle, HomeItemSeller, f.title, f.sellerId);
              var made := ManufacturerMatches(old(homeItems), f.manufacturer);
              var added := NewHomeItem(newId, f);
              && (|titled| >= 2 ==> answer == LookupFailed)
              && (|titled| == 1 ==> answer == Answered(UploadHomeItemResponse(false, DuplicateTitleMessage, None)))
              && (titled == {} && |made| >= 2 ==> answer == LookupFailed)
              && (titled == {} && |made| <= 1 && (exists k :: k in made && old(homeItems)[k].sellerId == f.sellerId) ==>
                    answer == Answered(UploadHomeItemResponse(false, DuplicateManufacturerMessage, None)))
              && (titled == {} && |made| <= 1 && (forall k :: k in made ==> old(homeItems)[k].sellerId != f.sellerId) ==>
                    && answer == Answered(UploadHomeItemResponse(true, UploadedMessage, Some(added)))
                    && homeItems == old(homeItems)[newId := added]
                    && saved == old(saved) + [added])
      ensures UniqueTitleSeller(old(homeItems), HomeItemTitle, HomeItemSeller) ==> UniqueTitleSeller(homeItems, HomeItemTitle, HomeItemSeller)
    {
      var existing := FindByTitleAndSellerId(f.title, f.sellerId);
      if existing == SeveralMatches {
        return LookupFailed;
      }
      if existing.OneMatch? {
        return Answered(UploadHomeItemResponse(false, DuplicateTitleMessage, None));
      }
      var byManufacturer := FindByManufacturer(f.manufacturer);
      if byManufacturer == SeveralMatches {
        return LookupFailed;
      }
      if byManufacturer.OneMatch? && byManufacturer.item.sellerId == f.sellerId {
        return Answered(UploadHomeItemResponse(false, DuplicateManufacturerMessage, None));
      }
      var item := NewHomeItem(newId, f);
      if UniqueTitleSeller(homeItems, HomeItemTitle, HomeItemSeller) {
        UploadKeepsUnique(homeItems, HomeItemTitle, HomeItemSeller, newId, item);
      }
      homeItems := homeItems[newId := item];
      saved := saved + [item];
      answer := Answered(UploadHomeItemResponse(true, UploadedMessage, Some(item)));
    }

    /** `updateHomeItem`: an unknown id is refused with the store
        unchanged; otherwise the eight fields, type and sellerId included,
        are overwritten and the item is saved once. */
    method UpdateHomeItem(id: string, f: HomeItemFields) returns (resp: UploadHomeItemResponse)
      requires Valid()
      modifies this
      ensures Valid()
      ensures id !in old(homeItems) ==>
                && resp == UploadHomeItemResponse(false, HomeItemNotFoundMessage, None)
                && homeItems == old(homeItems) && saved == old(saved)
      ensures id in old(homeItems) ==>
                && resp == UploadHomeItemResponse(true, HomeItemUpdatedMessage, Some(Overwrite(old(homeItems)[id], f)))
                && homeItems == old(homeItems)[id := Overwrite(old(homeItems)[id], f)]
                && saved == old(saved) + [Overwrite(old(homeItems)[id], f)]
    {
      if id !in homeItems {
        return UploadHomeItemResponse(false, HomeItemNotFoundMessage, None);
      }
      var updated := Overwrite(homeItems[id], f);
      homeItems := homeItems[id := updated];
      saved := saved + [updated];
      resp := UploadHomeItemResponse(true, HomeItemUpdatedMessage, Some(updated));
    }
  }
}
