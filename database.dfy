/**
 * The browser-local record store: one database value (devotees, donors and
 * the settings document) kept as JSON under a single localStorage key.
 * localStorage is a map from keys to entries; an entry is either a JSON
 * text that parses to a database (JSON encoding and parsing are taken as
 * the identity), the empty string, or text that does not parse.
 */
module LocalDatabase {
  import opened Base
  import opened Types

  datatype TempleDatabase = TempleDatabase(
    devotees: seq<Devotee>,
    donors: seq<Donation>,
    settings: TempleSettings)

  datatype Entry = Json(db: TempleDatabase) | Blank | Malformed

  const DatabaseKey: string := "templeDatabase"

  // ---------------------------------------------------------------------
  // Seed data
  // ---------------------------------------------------------------------

  const DefaultLandingPages: seq<LandingPage> := [
    LandingPage(1, "/assets/images/hero-1.jpg", "Shree Shree Tribhanglalita", "Krushnakali Yogmaya Mandir",
      "Experience divine grace and spiritual tranquility at our sacred temple. Join us in our journey of devotion and service.",
      "Offer Seva", "/donate", "Visit Us", "/contact"),
    LandingPage(2, "/assets/images/hero-2.jpg", "Participate in Annadaan", "The Sacred Act of Food Donation",
      "Contribute to our daily food distribution, providing sanctified meals to all devotees. Your generosity brings immense blessings.",
      "Donate for Annadaan", "/donate", "Learn More", "/about"),
    LandingPage(3, "/assets/images/hero-3.jpg", "Embrace Gau Seva", "Service to Mother Cow",
      "Support the care and protection of our sacred cows at the temple Goshala, an act of great spiritual merit.",
      "Support our Goshala", "/donate", "Our Philosophy", "/about"),
    LandingPage(4, "/assets/images/hero-4.jpg", "Deepen Your Knowledge", "Spiritual Education Initiatives",
      "Help us organize classes, seminars, and distribute spiritual literature to spread timeless Vedic wisdom to all.",
      "Sponsor Education", "/donate", "Upcoming Events", "/contact"),
    LandingPage(5, "/assets/images/hero-5.jpg", "Become a Devotee", "Join Our Temple Family",
      "Register with us to receive updates on events, festivals, and special pujas, and become part of our growing community.",
      "Register Now", "/register", "Contact Us", "/contact")
  ]

  const DefaultSettings: TempleSettings := TempleSettings(
    "/assets/images/temple-logo.png",
    DefaultLandingPages,
    ContactInfo(
      "Shree Shree Tribhanglalita\nKrushnakali Yogmaya Mandir\nSacred Grove, Vrindavan, India",
      "contact@yogmayamandir.org",
      "+91 123 456 7890"),
    DefaultServiceCards)

  /** The two example registrations, dated 2024-01-10T10:00:00Z and 2024-02-20T12:30:00Z. */
  const InitialDevotees: seq<Devotee> := [
    Devotee("dev1", "Arjun Sharma", "arjun.s@example.com", "9876543210", "1990-05-15", 1704880800000),
    Devotee("dev2", "Priya Patel", "priya.p@example.com", "9123456780", "1985-11-22", 1708432200000)
  ]

  /**
   * The four example donations, dated relative to the clock: two days ago,
   * one day ago, now, and the same instant two calendar months ago.
   */
  function InitialDonations(now: int, twoMonthsAgo: int): seq<Donation> {
    [
      Donation("don1", 5000, "Rohan Mehta", "rohan.m@example.com", "8901234567", "123, Temple Road", "",
        "Mumbai", "Maharashtra", "400001", Successful, now - 2 * Day, Some("pay_mock_12345")),
      Donation("don2", 1000, "Sunita Singh", "sunita.s@example.com", "7890123456", "456, Bhakti Marg", "",
        "Delhi", "Delhi", "110001", Pending, now - Day, None),
      Donation("don3", 2000, "Vikram Choudhary", "vikram.c@example.com", "6789012345", "789, Seva Lane", "",
        "Bengaluru", "Karnataka", "560001", Failed, now, Some("pay_mock_67890")),
      Donation("don4", 500, "Arjun Sharma", "arjun.s@example.com", "9876543210", "A-101, Devotion Heights", "",
        "Pune", "Maharashtra", "411001", Successful, twoMonthsAgo, Some("pay_mock_abcde"))
    ]
  }

  function Seed(now: int, twoMonthsAgo: int): TempleDatabase {
    TempleDatabase(InitialDevotees, InitialDonations(now, twoMonthsAgo), DefaultSettings)
  }

  /** The value readDB falls back to: no records and the default settings. */
  const EmptyDatabase: TempleDatabase := TempleDatabase([], [], DefaultSettings)

  /** The seed holds 2 devotees, 4 donors and the default settings with slides 1..5. */
  lemma SeedContents(now: int, twoMonthsAgo: int)
    ensures var db := Seed(now, twoMonthsAgo);
      && |db.devotees| == 2 && |db.donors| == 4
      && |db.settings.landingPages| == 5
      && (forall i :: 0 <= i < 5 ==> db.settings.landingPages[i].id == i + 1)
      && |db.settings.serviceCards| == 3
  {
  }

  // ---------------------------------------------------------------------
  // The store as functions of localStorage
  // ---------------------------------------------------------------------

  /** readDB: the stored database, or the empty default when it is absent, blank or unparsable. */
  function Read(storage: map<string, Entry>): (db: TempleDatabase) {
    if DatabaseKey in storage && storage[DatabaseKey].Json? then storage[DatabaseKey].db else EmptyDatabase
  }

  /** writeDB: the new localStorage; a failed write is swallowed and changes nothing. */
  function Write(storage: map<string, Entry>, db: TempleDatabase, fails: bool): map<string, Entry> {
    if fails then storage else storage[DatabaseKey := Json(db)]
  }

  /** initializeDatabase's test: nothing (or the empty string) is stored under the key. */
  predicate NeedsSeed(storage: map<string, Entry>) {
    DatabaseKey !in storage || storage[DatabaseKey].Blank?
  }

  function Initialized(storage: map<string, Entry>, seed: TempleDatabase, fails: bool): map<string, Entry> {
    if NeedsSeed(storage) then Write(storage, seed, fails) else storage
  }

  /** readDB finds what writeDB wrote, and nothing else in localStorage changes. */
  lemma ReadAfterWrite(storage: map<string, Entry>, db: TempleDatabase)
    ensures Read(Write(storage, db, false)) == db
    ensures forall k :: k in storage && k != DatabaseKey ==> k in Write(storage, db, false) && Write(storage, db, false)[k] == storage[k]
  {
  }

  /** readDB falls back to the empty database exactly when no parsable database is stored. */
  lemma ReadFallsBack(storage: map<string, Entry>)
    ensures Read(storage) == EmptyDatabase <==>
      (DatabaseKey !in storage || !storage[DatabaseKey].Json? || storage[DatabaseKey].db == EmptyDatabase)
  {
  }

  /**
   * Seeding is idempotent: once a seed has been written, a later run (with
   * any clock, and whether or not its write would fail) changes nothing.
   */
  lemma InitializeIdempotent(storage: map<string, Entry>, seed: TempleDatabase, later: TempleDatabase, fails: bool)
    ensures Initialized(Initialized(storage, seed, false), later, fails) == Initialized(storage, seed, false)
  {
  }

  /**
   * updateSettingsDB followed by getSettingsDB: a write that does not fail
   * makes the next read return exactly the new document, with both lists kept.
   */
  lemma SettingsReadBack(storage: map<string, Entry>, newSettings: TempleSettings)
    ensures var was := Read(storage);
      var after := Read(Write(storage, was.(settings := newSettings), false));
      && after.settings == newSettings
      && after.devotees == was.devotees && after.donors == was.donors
  {
    ReadAfterWrite(storage, Read(storage).(settings := newSettings));
  }

  /** Seeding never overwrites a database that is already there, and fills an empty key with the seed. */
  lemma InitializeKeepsExisting(storage: map<string, Entry>, seed: TempleDatabase)
    ensures !NeedsSeed(storage) ==> Read(Initialized(storage, seed, false)) == Read(storage)
    ensures NeedsSeed(storage) ==> Read(Initialized(storage, seed, false)) == seed
  {
  }

  /** The page's localStorage, with the database access functions of the store module. */
  class BrowserStore {
    var storage: map<string, Entry>

    constructor (initial: map<string, Entry>)
      ensures storage == initial
    {
      storage := initial;
    }

    function ReadDB(): (db: TempleDatabase)
      reads this
      ensures db == Read(storage)
    {
      Read(storage)
    }

    /** Writes the whole database; a failing write is logged and swallowed. */
    method WriteDB(db: TempleDatabase, fails: bool)
      modifies this
      ensures storage == Write(old(storage), db, fails)
    {
      if !fails {
        storage := storage[DatabaseKey := Json(db)];
      }
    }

    method InitializeDatabase(now: int, twoMonthsAgo: int, fails: bool)
      modifies this
      ensures storage == Initialized(old(storage), Seed(now, twoMonthsAgo), fails)
    {
      if DatabaseKey !in storage || storage[DatabaseKey].Blank? {
        WriteDB(Seed(now, twoMonthsAgo), fails);
      }
    }

    function GetDevoteesDB(): (r: seq<Devotee>)
      reads this
      ensures r == Read(storage).devotees
    {
      ReadDB().devotees
    }

    function GetDonorsDB(): (r: seq<Donation>)
      reads this
      ensures r == Read(storage).donors
    {
      ReadDB().donors
    }

    function GetSettingsDB(): (r: TempleSettings)
      reads this
      ensures r == Read(storage).settings
    {
      ReadDB().settings
    }

    /** Appends one registration at the end; donors and settings stay as they were. */
    method AddDevoteeDB(newDevotee: Devotee, fails: bool)
      modifies this
      ensures var was := Read(old(storage));
        storage == Write(old(storage), was.(devotees := was.devotees + [newDevotee]), fails)
      ensures !fails ==> GetDevoteesDB() == old(GetDevoteesDB()) + [newDevotee]
      ensures !fails ==> GetDonorsDB() == old(GetDonorsDB()) && GetSettingsDB() == old(GetSettingsDB())
      ensures fails ==> storage == old(storage)
    {
      var db := ReadDB();
      db := db.(devotees := db.devotees + [newDevotee]);
      WriteDB(db, fails);
    }

    /** Appends one donation at the end; devotees and settings stay as they were. */
    method AddDonorDB(newDonor: Donation, fails: bool)
      modifies this
      ensures var was := Read(old(storage));
        storage == Write(old(storage), was.(donors := was.donors + [newDonor]), fails)
      ensures !fails ==> GetDonorsDB() == old(GetDonorsDB()) + [newDonor]
      ensures !fails ==> GetDevoteesDB() == old(GetDevoteesDB()) && GetSettingsDB() == old(GetSettingsDB())
      ensures fails ==> storage == old(storage)
    {
      var db := ReadDB();
      db := db.(donors := db.donors + [newDonor]);
      WriteDB(db, fails);
    }

    /** Replaces the settings document wholesale; both lists stay as they were. */
    method UpdateSettingsDB(newSettings: TempleSettings, fails: bool)
      modifies this
      ensures var was := Read(old(storage));
        storage == Write(old(storage), was.(settings := newSettings), fails)
      ensures !fails ==> GetSettingsDB() == newSettings
      ensures !fails ==> GetDevoteesDB() == old(GetDevoteesDB()) && GetDonorsDB() == old(GetDonorsDB())
      ensures fails ==> storage == old(storage)
    {
      var db := ReadDB();
      db := db.(settings := newSettings);
      WriteDB(db, fails);
    }
  }
}
