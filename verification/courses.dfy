/**
 * The course catalog of api/index.js: a fixed, ordered dictionary from course id
 * to course record, its public listing, and the id check that create-order runs.
 */
module Courses {
  import opened Wrappers
  import Seqs

  /** A course as the catalog stores it; `price` is in rupees (major units). */
  datatype Course = Course(
    name: string,
    price: int,
    downloadLink: string,
    image: string,
    description: string,
    readMoreLink: string)

  /** The catalog: course ids paired with courses, in definition order. */
  type Catalog = seq<(string, Course)>

  /** The public view of a course served by get-notes: every field except the download link. */
  datatype Listing = Listing(
    id: string,
    name: string,
    price: int,
    image: string,
    description: string,
    readMoreLink: string)

  /** No id occurs twice (a JavaScript object literal has each key once). */
  predicate UniqueKeys(catalog: Catalog) {
    forall i, j :: 0 <= i < j < |catalog| ==> catalog[i].0 != catalog[j].0
  }

  /** The catalog shipped with the service, in the order its keys are written. */
  const Glitch: Catalog := [
    ("glitch_the_matrix", Course(
      "Full Vault Access", 1,
      "https://drive.google.com/uc?export=download&id=1c-derRuqDkC89cW5kTCp8ujFO1zc3Nsw",
      "https://github.com/glitchingthroughmatrix/image-hosting/blob/main/Break%20the%20matrix%20thumbnail%20on%20website.png?raw=true",
      "Complete access to all premium courses including financial strategies, investment techniques, and business development resources.",
      "google.com")),
    ("andrew_tate", Course(
      "Andrew Tate Courses", 79,
      "https://drive.google.com/uc?export=download&id=149LFArfYaOsqSJHYxsghVC3kSIhpQVyH",
      "https://github.com/glitchingthroughmatrix/image-hosting/blob/main/Andrew%20tate%20all%20course.png?raw=true",
      "Learn from Andrew Tate's proven strategies for wealth creation, business mastery, and personal development.",
      "google.com")),
    ("luke_belmar", Course(
      "Luke Belmar Courses", 79,
      "https://drive.google.com/uc?export=download&id=1YQzTFUm_ud5qOzLYwqaGzSd5heAW_RqY",
      "https://github.com/glitchingthroughmatrix/image-hosting/blob/main/Luke%20Belmar.png?raw=true",
      "Master digital entrepreneurship and online business strategies with Luke Belmar's cutting-edge methodologies.",
      "google.com")),
    ("iman_gadzhi", Course(
      "Iman Gadzhi Courses", 79,
      "https://drive.google.com/uc?export=download&id=1lUoOdmzG6Oqzz6qRrqkIuldz1V01wpK3",
      "https://github.com/glitchingthroughmatrix/image-hosting/blob/main/Iman%20Gadzhi.png?raw=true",
      "Build successful agencies and scale your business using Iman Gadzhi's proven marketing frameworks.",
      "google.com"))
  ]

  /** The shipped catalog has distinct ids and positive prices. */
  lemma GlitchWellFormed()
    ensures UniqueKeys(Glitch)
    ensures forall i :: 0 <= i < |Glitch| ==> Glitch[i].1.price > 0
  {
  }

  /** `catalog[id]` for an own key of the dictionary. */
  function Lookup(catalog: Catalog, id: string): (r: Option<Course>)
    ensures r.None? <==> forall i :: 0 <= i < |catalog| ==> catalog[i].0 != id
    ensures r.Some? ==> exists i :: 0 <= i < |catalog| && catalog[i] == (id, r.value)
  {
    match Seqs.FindFirst(catalog, (e: (string, Course)) => e.0 == id)
    case None => None
    case Some(i) => Some(catalog[i].1)
  }

  /** With distinct ids, the course at any position is what a lookup of its id yields. */
  lemma LookupFindsEntry(catalog: Catalog, i: nat)
    requires UniqueKeys(catalog)
    requires i < |catalog|
    ensures Lookup(catalog, catalog[i].0) == Some(catalog[i].1)
  {
  }

  /** The public projection of one catalog entry. */
  function Project(id: string, c: Course): Listing {
    Listing(id, c.name, c.price, c.image, c.description, c.readMoreLink)
  }

  /** The get-notes listing: one public entry per catalog key, in key order. */
  function Listings(catalog: Catalog): (r: seq<Listing>)
    ensures |r| == |catalog|
    ensures forall i :: 0 <= i < |r| ==>
      && r[i].id == catalog[i].0
      && r[i].name == catalog[i].1.name
      && r[i].price == catalog[i].1.price
      && r[i].image == catalog[i].1.image
      && r[i].description == catalog[i].1.description
      && r[i].readMoreLink == catalog[i].1.readMoreLink
  {
    if |catalog| == 0 then []
    else [Project(catalog[0].0, catalog[0].1)] + Listings(catalog[1..])
  }

  /** The listing entry at position `i` is the projection of the catalog entry there. */
  lemma ListedAt(catalog: Catalog, i: nat)
    requires i < |catalog|
    ensures i < |Listings(catalog)| && Listings(catalog)[i] == Project(catalog[i].0, catalog[i].1)
  {
  }

  /** An id is listed exactly when a lookup finds it, and its entry shows that course. */
  lemma ListingAgreesWithLookup(catalog: Catalog, id: string)
    requires UniqueKeys(catalog)
    ensures (exists i :: 0 <= i < |Listings(catalog)| && Listings(catalog)[i].id == id)
            <==> Lookup(catalog, id).Some?
    ensures forall i :: 0 <= i < |Listings(catalog)| && Listings(catalog)[i].id == id ==>
              Lookup(catalog, id) == Some(catalog[i].1)
              && Listings(catalog)[i] == Project(id, catalog[i].1)
  {
    var l := Listings(catalog);
    if Lookup(catalog, id).Some? {
      var i :| 0 <= i < |catalog| && catalog[i] == (id, Lookup(catalog, id).value);
      assert l[i].id == id;
    }
    forall i | 0 <= i < |l| && l[i].id == id
      ensures Lookup(catalog, id) == Some(catalog[i].1) && l[i] == Project(id, catalog[i].1)
    {
      LookupFindsEntry(catalog, i);
      ListedAt(catalog, i);
    }
  }

  /** Two catalogs that differ at most in their download links. */
  predicate SameButLinks(c1: Catalog, c2: Catalog) {
    && |c1| == |c2|
    && forall i :: 0 <= i < |c1| ==>
         && c1[i].0 == c2[i].0
         && c1[i].1 == c2[i].1.(downloadLink := c1[i].1.downloadLink)
  }

  /** The listing does not depend on download links: it never exposes one. */
  lemma ListingIgnoresDownloadLinks(c1: Catalog, c2: Catalog)
    requires SameButLinks(c1, c2)
    ensures Listings(c1) == Listings(c2)
  {
  }

  /**
   * Names every plain JavaScript object inherits from `Object.prototype`; indexing
   * the catalog object with one of them yields a truthy value.
   */
  const ObjectPrototypeNames: set<string> := {
    "constructor", "__proto__", "toString", "toLocaleString", "valueOf",
    "hasOwnProperty", "isPrototypeOf", "propertyIsEnumerable",
    "__defineGetter__", "__defineSetter__", "__lookupGetter__", "__lookupSetter__"
  }

  /**
   * `catalog[id]` as JavaScript evaluates it on the catalog object: an own key gives
   * its course; a name inherited from `Object.prototype` gives the inherited value,
   * which `inherited` stands for; anything else is `undefined` (None). The
   * create-order guard passes exactly when the result is Some.
   */
  function LookupAsWritten(catalog: Catalog, id: string, inherited: Course): (r: Option<Course>)
    ensures Lookup(catalog, id).Some? ==> r == Lookup(catalog, id)
    ensures r.None? <==> Lookup(catalog, id).None? && id !in ObjectPrototypeNames
    ensures Lookup(catalog, id).None? && id in ObjectPrototypeNames ==> r == Some(inherited)
  {
    match Lookup(catalog, id)
    case Some(c) => Some(c)
    case None => if id in ObjectPrototypeNames then Some(inherited) else None
  }

  /** The guard as written lets through "constructor", which names no course. */
  lemma AsWrittenGuardAdmitsConstructor(inherited: Course)
    ensures LookupAsWritten(Glitch, "constructor", inherited) == Some(inherited)
    ensures Lookup(Glitch, "constructor").None?
  {
  }
}
