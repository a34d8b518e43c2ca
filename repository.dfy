/**
 * The feature store: a collection of documents keyed by `_key`, written by
 * upserts tagged with an import identifier, purged by import identifier,
 * and read by point lookup and by a filtered, truncated text search.
 *
 * The database's text analyzer (edge n-gram tokens, every query token
 * matching) is not modelled: search takes it as the parameter
 * `analyzerMatch(text, searchableText)`.
 */
module Repository {
  import opened Wrappers
  import opened Features

  /** A stored document: `_key`, `type`, `searchableText`, `geometry`, `properties`, `importID`. */
  datatype Document = Document(
    key: string,
    featureType: FeatureType,
    searchableText: seq<string>,
    geometry: Geometry,
    properties: Properties,
    importID: string)

  /** The error a lookup of an absent key raises. */
  datatype NotFound = DocumentNotFound(key: string)

  // ---------------------------------------------------------------------
  // Searchable text
  // ---------------------------------------------------------------------

  /** `filter(v => !!v)` over optional strings: keeps present, non-empty ones in order. */
  function Present(values: seq<Option<string>>): (texts: seq<string>)
    ensures |texts| <= |values|
    ensures forall i :: 0 <= i < |texts| ==> texts[i] != ""
    ensures forall s :: s in texts <==> s != "" && Some(s) in values
  {
    if values == [] then []
    else
      var rest := Present(values[1..]);
      assert forall s :: Some(s) in values <==> Some(s) == values[0] || Some(s) in values[1..];
      match values[0]
      case Some(s) => if s != "" then [s] + rest else rest
      case None => rest
  }

  /** Filtering keeps order: the filter of a concatenation is the concatenation of the filters. */
  lemma {:induction false} PresentAppend(a: seq<Option<string>>, b: seq<Option<string>>)
    ensures Present(a + b) == Present(a) + Present(b)
  {
    if a != [] {
      assert (a + b)[1..] == a[1..] + b;
      PresentAppend(a[1..], b);
    } else {
      assert a + b == b;
    }
  }

  /** The name, then, for ski areas only, the English locality, region and country. */
  function Candidates(feature: Feature): (candidates: seq<Option<string>>)
    ensures |candidates| == 4 && candidates[0] == feature.properties.name
  {
    var location := if feature.properties.featureType == SkiArea then feature.properties.location else None;
    match location
    case None => [feature.properties.name, None, None, None]
    case Some(place) => [feature.properties.name, place.en.locality, place.en.region, place.en.country]
  }

  /** `[name]` when the name is present and non-empty, `[]` otherwise. */
  function NameText(name: Option<string>): seq<string>
  {
    if name.Some? && name.value != "" then [name.value] else []
  }

  /** The list of strings indexed for text search. */
  function SearchableText(feature: Feature): (texts: seq<string>)
    ensures |texts| <= 4
    ensures forall i :: 0 <= i < |texts| ==> texts[i] != ""
    ensures feature.properties.featureType != SkiArea || feature.properties.location.None? ==>
              texts == NameText(feature.properties.name)
    ensures feature.properties.name.Some? && feature.properties.name.value != "" ==>
              |texts| > 0 && texts[0] == feature.properties.name.value
  {
    var candidates := Candidates(feature);
    PresentAppend([candidates[0]], candidates[1..]);
    assert [candidates[0]] + candidates[1..] == candidates;
    assert feature.properties.featureType != SkiArea || feature.properties.location.None? ==>
             candidates[1..] == [None, None, None];
    assert Present([None, None, None]) == [];
    Present(candidates)
  }

  /** A ski area without a location is indexed by its name alone. */
  lemma SkiAreaWithoutLocation(feature: Feature)
    requires feature.properties.featureType == SkiArea
    requires feature.properties.location.None?
    ensures SearchableText(feature) == NameText(feature.properties.name)
  {
  }

  /**
   * A ski area's searchable text holds exactly its present, non-empty
   * name, locality, region and country, in that order.
   */
  lemma SkiAreaSearchableText(feature: Feature)
    requires feature.properties.featureType == SkiArea
    requires feature.properties.location.Some?
    ensures var en := feature.properties.location.value.en;
            SearchableText(feature) ==
              NameText(feature.properties.name) + NameText(en.locality) + NameText(en.region) + NameText(en.country)
  {
    var en := feature.properties.location.value.en;
    var candidates := Candidates(feature);
    assert candidates == [feature.properties.name] + [en.locality] + [en.region] + [en.country];
    PresentAppend([feature.properties.name] + [en.locality] + [en.region], [en.country]);
    PresentAppend([feature.properties.name] + [en.locality], [en.region]);
    PresentAppend([feature.properties.name], [en.locality]);
    forall name: Option<string> ensures Present([name]) == NameText(name) {
      assert [name][1..] == [];
    }
  }

  // ---------------------------------------------------------------------
  // Documents
  // ---------------------------------------------------------------------

  /** `{ type: "Feature", properties, geometry }` of a stored document. */
  function DocumentToFeature(document: Document): Feature
  {
    Feature(document.properties, document.geometry)
  }

  /**
   * The projection keeps exactly `properties` and `geometry`: `_key`,
   * `type`, `searchableText` and `importID` never reach the caller.
   */
  lemma DocumentToFeatureKeepsOnlyPayload(first: Document, second: Document)
    ensures DocumentToFeature(first) == DocumentToFeature(second)
            <==> first.properties == second.properties && first.geometry == second.geometry
  {
  }

  /** The document both branches of the UPSERT write for `feature` under `key`. */
  function StoredDocument(key: string, feature: Feature, importID: string): (document: Document)
    ensures document.key == key && document.importID == importID
    ensures document.featureType == feature.properties.featureType
    ensures document.searchableText == SearchableText(feature)
    ensures DocumentToFeature(document) == feature
  {
    Document(key, feature.properties.featureType, SearchableText(feature),
             feature.geometry, feature.properties, importID)
  }

  /** Every document is stored under its own `_key`, with `type` taken from its properties. */
  predicate WellKeyed(collection: map<string, Document>)
  {
    forall key :: key in collection ==>
      collection[key].key == key && collection[key].featureType == collection[key].properties.featureType
  }

  /** The collection after `upsert(feature, importID)`. */
  function Upserted(collection: map<string, Document>, feature: Feature, importID: string): (after: map<string, Document>)
    ensures feature.properties.id in after
    ensures after[feature.properties.id].importID == importID
    ensures DocumentToFeature(after[feature.properties.id]) == feature
    ensures forall key :: key != feature.properties.id ==>
              (key in after <==> key in collection) && (key in collection ==> after[key] == collection[key])
    ensures WellKeyed(collection) ==> WellKeyed(after)
  {
    collection[feature.properties.id := StoredDocument(feature.properties.id, feature, importID)]
  }

  /** The collection after `removeExceptImport(importID)`. */
  function KeptImport(collection: map<string, Document>, importID: string): (kept: map<string, Document>)
    ensures kept.Keys <= collection.Keys
    ensures forall key :: key in kept ==> kept[key] == collection[key] && kept[key].importID == importID
    ensures forall key :: key in collection && collection[key].importID == importID ==> key in kept
    ensures WellKeyed(collection) ==> WellKeyed(kept)
  {
    map key | key in collection && collection[key].importID == importID :: collection[key]
  }

  /** A document the text search selects. */
  predicate Matches(analyzerMatch: (string, seq<string>) -> bool, text: string,
                    featureType: FeatureType, document: Document)
  {
    analyzerMatch(text, document.searchableText) && document.featureType == featureType
  }

  // ---------------------------------------------------------------------
  // Lemmas about the store
  // ---------------------------------------------------------------------

  /** Upserting the same feature under the same import twice is the same as once. */
  lemma UpsertIdempotent(collection: map<string, Document>, feature: Feature, importID: string)
    ensures Upserted(Upserted(collection, feature, importID), feature, importID)
            == Upserted(collection, feature, importID)
  {
  }

  /** Purging twice by the same import is the same as purging once. */
  lemma PurgeIdempotent(collection: map<string, Document>, importID: string)
    ensures KeptImport(KeptImport(collection, importID), importID) == KeptImport(collection, importID)
  {
  }

  /** The collection after upserting `features` one after another under `importID`. */
  function UpsertedAll(collection: map<string, Document>, features: seq<Feature>, importID: string): map<string, Document>
    decreases |features|
  {
    if features == [] then collection
    else UpsertedAll(Upserted(collection, features[0], importID), features[1..], importID)
  }

  /** The ids of a sequence of features. */
  function Ids(features: seq<Feature>): set<string>
  {
    set i | 0 <= i < |features| :: features[i].properties.id
  }

  /** The ids of a non-empty batch: the first one's and the rest's. */
  lemma IdsUncons(features: seq<Feature>)
    requires features != []
    ensures Ids(features) == {features[0].properties.id} + Ids(features[1..])
  {
  }

  /** One upsert under `importID` adds exactly its id to what a purge by `importID` keeps. */
  lemma KeptAfterUpsert(collection: map<string, Document>, feature: Feature, importID: string)
    ensures KeptImport(Upserted(collection, feature, importID), importID).Keys
            == KeptImport(collection, importID).Keys + {feature.properties.id}
  {
  }

  /**
   * Upserting a batch and then purging by its import keeps exactly the
   * batch's ids and whatever already carried that import.
   */
  lemma {:induction false} UpsertAllThenPurgeKeys(collection: map<string, Document>, features: seq<Feature>, importID: string)
    ensures KeptImport(UpsertedAll(collection, features, importID), importID).Keys
            == KeptImport(collection, importID).Keys + Ids(features)
    decreases |features|
  {
    if features != [] {
      var next := Upserted(collection, features[0], importID);
      UpsertAllThenPurgeKeys(next, features[1..], importID);
      KeptAfterUpsert(collection, features[0], importID);
      IdsUncons(features);
    } else {
      assert Ids(features) == {};
    }
  }

  /** A key no feature of the batch carries is neither added nor changed by the batch. */
  lemma {:induction false} UpsertedAllUntouched(collection: map<string, Document>, features: seq<Feature>,
                                                importID: string, key: string)
    requires key !in Ids(features)
    ensures key in UpsertedAll(collection, features, importID) <==> key in collection
    ensures key in collection ==> UpsertedAll(collection, features, importID)[key] == collection[key]
    decreases |features|
  {
    if features != [] {
      IdsUncons(features);
      UpsertedAllUntouched(Upserted(collection, features[0], importID), features[1..], importID, key);
    }
  }

  /** `features[i]` is the last feature of the batch with its id. */
  predicate LastWithId(features: seq<Feature>, i: nat)
    requires i < |features|
  {
    forall j :: i < j < |features| ==> features[j].properties.id != features[i].properties.id
  }

  /** The last upsert of an id in a batch decides the document stored under it. */
  lemma {:induction false} UpsertedAllLastWins(collection: map<string, Document>, features: seq<Feature>,
                                               importID: string, i: nat)
    requires i < |features| && LastWithId(features, i)
    ensures var id := features[i].properties.id;
            id in UpsertedAll(collection, features, importID)
            && UpsertedAll(collection, features, importID)[id] == StoredDocument(id, features[i], importID)
    decreases |features|
  {
    var next := Upserted(collection, features[0], importID);
    if i == 0 {
      var id := features[0].properties.id;
      forall j | 0 <= j < |features[1..]| ensures features[1..][j].properties.id != id {
        assert features[1..][j] == features[j + 1];
      }
      assert id !in Ids(features[1..]);
      UpsertedAllUntouched(next, features[1..], importID, id);
    } else {
      assert LastWithId(features[1..], i - 1) by {
        forall j | i - 1 < j < |features[1..]|
          ensures features[1..][j].properties.id != features[1..][i - 1].properties.id
        {
          assert features[1..][j] == features[j + 1];
        }
      }
      UpsertedAllLastWins(next, features[1..], importID, i - 1);
      assert features[1..][i - 1] == features[i];
    }
  }

  /**
   * The cut-over: after a fresh import tag is upserted over a whole batch
   * and the store is purged by it, the store holds exactly the batch's ids,
   * all tagged with that import, and each id holds the document of the
   * batch's last feature with that id.
   */
  lemma ImportCutover(collection: map<string, Document>, features: seq<Feature>, importID: string)
    requires forall key :: key in collection ==> collection[key].importID != importID
    ensures KeptImport(UpsertedAll(collection, features, importID), importID).Keys == Ids(features)
    ensures var after := KeptImport(UpsertedAll(collection, features, importID), importID);
            forall key :: key in after ==> after[key].importID == importID
    ensures var after := KeptImport(UpsertedAll(collection, features, importID), importID);
            forall i :: 0 <= i < |features| && LastWithId(features, i) ==>
              features[i].properties.id in after
              && after[features[i].properties.id] == StoredDocument(features[i].properties.id, features[i], importID)
  {
    UpsertAllThenPurgeKeys(collection, features, importID);
    assert KeptImport(collection, importID).Keys == {};
    forall i | 0 <= i < |features| && LastWithId(features, i)
      ensures var after := KeptImport(UpsertedAll(collection, features, importID), importID);
              features[i].properties.id in after
              && after[features[i].properties.id] == StoredDocument(features[i].properties.id, features[i], importID)
    {
      UpsertedAllLastWins(collection, features, importID, i);
    }
  }

  // ---------------------------------------------------------------------
  // The repository
  // ---------------------------------------------------------------------

  class Repository {
    /** The features collection, by `_key`. */
    var collection: map<string, Document>

    ghost predicate Valid()
      reads this
    {
      WellKeyed(collection)
    }

    /** A repository over a collection that already holds `documents`. */
    constructor (documents: map<string, Document>)
      requires WellKeyed(documents)
      ensures Valid() && collection == documents
    {
      collection := documents;
    }

    /** `documentExists({ _key: id })`: never fails for a missing key. */
    method Has(id: string) returns (present: bool)
      ensures present <==> id in collection
    {
      present := id in collection;
    }

    /** Point lookup; an absent key is an error, not a value. */
    method Get(id: string) returns (result: Result<Feature, NotFound>)
      ensures result.Success? <==> id in collection
      ensures id in collection ==> result.value == Feature(collection[id].properties, collection[id].geometry)
      ensures id !in collection ==> result.error == DocumentNotFound(id)
    {
      if id !in collection {
        return Failure(DocumentNotFound(id));
      }
      result := Success(DocumentToFeature(collection[id]));
    }

    /**
     * FILTER by the analyzer match and the requested type, then LIMIT. No
     * ORDER clause: documents are visited in an order the database picks,
     * modelled as an arbitrary choice. `keys` names the document behind
     * each result.
     */
    method Search(analyzerMatch: (string, seq<string>) -> bool, text: string,
                  featureType: FeatureType, limit: nat)
      returns (features: seq<Feature>, ghost keys: seq<string>)
      requires Valid()
      ensures |features| == |keys| <= limit
      ensures forall i :: 0 <= i < |keys| ==>
                keys[i] in collection && Matches(analyzerMatch, text, featureType, collection[keys[i]])
                && features[i] == DocumentToFeature(collection[keys[i]])
      ensures forall i :: 0 <= i < |features| ==> features[i].properties.featureType == featureType
      ensures forall i, j :: 0 <= i < j < |keys| ==> keys[i] != keys[j]
      ensures |features| < limit ==>
                forall key :: key in collection && Matches(analyzerMatch, text, featureType, collection[key]) ==>
                  key in keys
    {
      var remaining := set key | key in collection && Matches(analyzerMatch, text, featureType, collection[key]);
      features, keys := [], [];
      while remaining != {} && |features| < limit
        invariant |features| == |keys| <= limit
        invariant forall key :: key in remaining ==>
                    key in collection && Matches(analyzerMatch, text, featureType, collection[key])
        invariant forall key :: key in collection && Matches(analyzerMatch, text, featureType, collection[key]) ==>
                    key in remaining || key in keys
        invariant forall i :: 0 <= i < |keys| ==>
                    keys[i] in collection && Matches(analyzerMatch, text, featureType, collection[keys[i]])
                    && keys[i] !in remaining && features[i] == DocumentToFeature(collection[keys[i]])
        invariant forall i, j :: 0 <= i < j < |keys| ==> keys[i] != keys[j]
        decreases remaining
      {
        var key :| key in remaining;
        features := features + [DocumentToFeature(collection[key])];
        keys := keys + [key];
        remaining := remaining - {key};
      }
    }

    /** Deletes every document whose `importID` differs from `importID`. */
    method RemoveExceptImport(importID: string)
      requires Valid()
      modifies this
      ensures Valid()
      ensures collection == KeptImport(old(collection), importID)
    {
      var stale := set key | key in collection && collection[key].importID != importID;
      while stale != {}
        invariant forall key :: key in collection <==>
                    key in old(collection) && (old(collection)[key].importID == importID || key in stale)
        invariant forall key :: key in collection ==> collection[key] == old(collection)[key]
        decreases stale
      {
        var key :| key in stale;
        collection := collection - {key};
        stale := stale - {key};
      }
    }

    /** Upserts `feature` under its own id. */
    method Upsert(feature: Feature, importID: string)
      requires Valid()
      modifies this
      ensures Valid()
      ensures collection == Upserted(old(collection), feature, importID)
      ensures feature.properties.id in collection
    {
      UpsertData(feature.properties.id, feature, importID);
    }

    /**
     * `UPSERT { _key: id } INSERT doc UPDATE doc`: both branches write the
     * same document, so the outcome does not depend on whether `id` exists.
     */
    method UpsertData(id: string, feature: Feature, importID: string)
      requires Valid()
      modifies this
      ensures Valid()
      ensures collection == old(collection)[id := StoredDocument(id, feature, importID)]
    {
      var searchableText := SearchableText(feature);
      collection := collection[id := Document(id, feature.properties.featureType, searchableText,
                                              feature.geometry, feature.properties, importID)];
    }
  }
}
