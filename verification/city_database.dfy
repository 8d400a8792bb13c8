/** The read-only city lookup table (`CityDatabase` in main.py). Keys are
    stored in normalised form; every query is normalised the same way, by
    lower-casing and then stripping surrounding whitespace. */
module CityDatabase {
  import opened Wrappers
  import opened Text

  /** One stored city record. */
  datatype CityInfo = CityInfo(
    name: string,
    country: string,
    summary: string,
    population: string,
    timezone: string)

  /** The table, keyed by normalised city name. */
  type Cities = map<string, CityInfo>

  /** `city.lower().strip()` */
  function Normalize(city: string): string
  {
    Strip(Lower(city))
  }

  /** Every key is already in normalised form, so the key a query is
      normalised to is the key it was stored under. */
  predicate WellKeyed(db: Cities)
  {
    forall key :: key in db ==> Normalize(key) == key
  }

  /** `search(city)`: the record stored under the normalised query, if any. */
  function Search(db: Cities, city: string): Option<CityInfo>
  {
    var key := Normalize(city);
    if key in db then Some(db[key]) else None
  }

  /** `has_city(city)`: whether the normalised query is a stored key. It holds
      exactly when `search` returns a record. */
  function HasCity(db: Cities, city: string): (found: bool)
    ensures found <==> Search(db, city).Some?
  {
    Normalize(city) in db
  }

  /** Lower-casing keeps whitespace where it is. */
  lemma LowerSpaces(w: string)
    requires AllSpace(w)
    ensures Lower(w) == w
  {
    forall i | 0 <= i < |w| ensures Lower(w)[i] == w[i] {
      assert IsSpace(w[i]);
    }
  }

  /** Lower-casing works character by character. */
  lemma LowerConcat(a: string, b: string)
    ensures Lower(a + b) == Lower(a) + Lower(b)
  {
    assert forall i | 0 <= i < |a + b| :: Lower(a + b)[i] == (Lower(a) + Lower(b))[i];
  }

  /** A stored city is found under any casing of its key padded by any
      whitespace, e.g. " PARIS " finds the record stored under "paris". */
  lemma SearchFindsVariants(db: Cities, key: string, variant: string, w1: string, w2: string)
    requires key in db && Normalize(key) == key
    requires Lower(variant) == key
    requires AllSpace(w1) && AllSpace(w2)
    ensures Search(db, w1 + variant + w2) == Some(db[key])
    ensures HasCity(db, w1 + variant + w2)
  {
    var padded := w1 + variant + w2;
    assert Lower(padded) == w1 + key + w2 by {
      LowerConcat(w1 + variant, w2);
      LowerConcat(w1, variant);
      LowerSpaces(w1);
      LowerSpaces(w2);
    }
    StripPadded(w1, key, w2);
    assert Normalize(padded) == Strip(key);
    assert Strip(key) == key;
  }

  /** Two queries that normalise alike get the same answer from both
      operations. */
  lemma SearchRespectsNormalization(db: Cities, a: string, b: string)
    requires Normalize(a) == Normalize(b)
    ensures Search(db, a) == Search(db, b)
    ensures HasCity(db, a) == HasCity(db, b)
  {
  }

  /** The table seeded at start-up, with the three prose summaries taken as
      parameters: the descriptive text never influences the workflow, and
      keeping it out of the proofs keeps them cheap. `DefaultCities` supplies
      the prose main.py seeds. */
  function SeedCities(parisSummary: string, tokyoSummary: string, newYorkSummary: string): (db: Cities)
    ensures db.Keys == {"paris", "tokyo", "new york"}
  {
    map[
      "paris" := CityInfo(
        "Paris",
        "France",
        parisSummary,
        "2.2 million",
        "CET (UTC+1)"),
      "tokyo" := CityInfo(
        "Tokyo",
        "Japan",
        tokyoSummary,
        "14 million",
        "JST (UTC+9)"),
      "new york" := CityInfo(
        "New York",
        "United States",
        newYorkSummary,
        "8.3 million",
        "EST (UTC-5)")
    ]
  }

  /** The table exactly as seeded, summaries included. */
  function DefaultCities(): Cities
  {
    SeedCities(ParisSummary, TokyoSummary, NewYorkSummary)
  }

  const ParisSummary: string :=
    "Paris is the capital and most populous city of France. \n"
    + "Known for iconic landmarks like the Eiffel Tower, Louvre Museum, Notre-Dame Cathedral, \n"
    + "and Arc de Triomphe. The city is famous for its art, fashion, gastronomy, and culture. \n"
    + "It's often called the 'City of Light' due to its role in the Age of Enlightenment and \n"
    + "its early adoption of street lighting. Paris is divided into 20 arrondissements and \n"
    + "sits along the Seine River."

  const TokyoSummary: string :=
    "Tokyo is the capital of Japan and the world's most populous \n"
    + "metropolitan area. It's a major global financial center and home to cutting-edge technology, \n"
    + "fashion, and cuisine. The city blends ultramodern skyscrapers with historic temples and \n"
    + "traditional gardens. Famous districts include Shibuya, Shinjuku, Harajuku, and Akihabara. \n"
    + "Tokyo hosted the 2020 Summer Olympics and is known for its efficient public transportation, \n"
    + "safety, and cleanliness."

  const NewYorkSummary: string :=
    "New York City is the most populous city in the United States, \n"
    + "known as 'The City That Never Sleeps'. It comprises 5 boroughs: Manhattan, Brooklyn, Queens, \n"
    + "The Bronx, and Staten Island. Home to iconic landmarks like the Statue of Liberty, Empire \n"
    + "State Building, Central Park, Times Square, and Broadway. NYC is a global hub for finance, \n"
    + "media, art, fashion, and culture. It's the most linguistically and culturally diverse city \n"
    + "in the world."

  /** The seeded keys are stored in normalised form. */
  lemma SeedWellKeyed(p: string, t: string, n: string)
    ensures WellKeyed(SeedCities(p, t, n))
  {
    forall key | key in SeedCities(p, t, n) ensures Normalize(key) == key {
      assert Lower(key) == key;
      StripStripped(key);
    }
  }

  /** " PARIS " finds the seeded Paris record. */
  lemma SeedFindsPaddedUpperCase(p: string, t: string, n: string)
    ensures Search(SeedCities(p, t, n), " PARIS ") == Some(SeedCities(p, t, n)["paris"])
  {
    NormalizePadded(" PARIS ", " ", "paris", " ");
  }

  /** Normalising text that lower-cases to a stripped key with any
      whitespace on either side gives that key. */
  lemma NormalizePadded(query: string, w1: string, key: string, w2: string)
    requires AllSpace(w1) && AllSpace(w2) && Stripped(key)
    requires Lower(query) == w1 + key + w2
    ensures Normalize(query) == key
  {
    StripPadded(w1, key, w2);
    StripStripped(key);
  }

  /** "Snohomish" is not a seeded city. */
  lemma SeedLacksSnohomish(p: string, t: string, n: string)
    ensures !HasCity(SeedCities(p, t, n), "Snohomish")
  {
    assert Lower("Snohomish") == "snohomish";
    StripStripped("snohomish");
  }
}
