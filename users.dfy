/** The persistence model: the User and Booking records with their property
    getters, setters and update methods, their snapshots (`read`), and the
    bookings table as a store keyed by booking id. */
module Users {
  import opened Dates

  /** The password a User gets when none is given. */
  const DefaultPassword := "123qwerty"
  /** The destination code a Booking gets when none is given. */
  const DefaultDestination := "LAX"
  /** How many characters of the stored hash the password property shows. */
  const PreviewLength := 10
  const Ellipsis := "..."

  function Min(a: int, b: int): int {
    if a <= b then a else b
  }

  /** The value an update leaves in a field: the replacement when it is
      non-empty, the current value otherwise. */
  function Replaced(current: string, replacement: string): (r: string)
    ensures |replacement| == 0 ==> r == current
    ensures |replacement| > 0 ==> r == replacement
  {
    if |replacement| > 0 then replacement else current
  }

  /** The password property: the first ten characters of the stored hash
      followed by "...", so that no more of the hash is ever shown. */
  function PasswordPreview(stored: string): (r: string)
    ensures |r| == Min(PreviewLength, |stored|) + |Ellipsis| <= 13
    ensures r[..|r| - |Ellipsis|] == stored[..Min(PreviewLength, |stored|)]
    ensures r[|r| - |Ellipsis|..] == Ellipsis
  {
    stored[..Min(PreviewLength, |stored|)] + Ellipsis
  }

  /** Two stored hashes that agree on their first ten characters display the same. */
  lemma PreviewShowsOnlyPrefix(h1: string, h2: string)
    requires Min(PreviewLength, |h1|) == Min(PreviewLength, |h2|)
    requires h1[..Min(PreviewLength, |h1|)] == h2[..Min(PreviewLength, |h2|)]
    ensures PasswordPreview(h1) == PasswordPreview(h2)
  {
  }

  /** The preview always ends in "...", so a plaintext that does not is never shown. */
  lemma PreviewIsNotPlaintext(stored: string, plain: string)
    requires |plain| < |Ellipsis| || plain[|plain| - |Ellipsis|..] != Ellipsis
    ensures PasswordPreview(stored) != plain
  {
  }

  /** A booking as the listing endpoint serialises it. */
  datatype BookingSnapshot = BookingSnapshot(
    bookingid: string,
    travelername: string,
    uid: string,
    flightdate: string,
    destination: string)

  /** A user as `read` serialises it, without the database id and the posts. */
  datatype UserSnapshot = UserSnapshot(
    name: string,
    uid: string,
    dob: string,
    age: int,
    bookings: seq<BookingSnapshot>)

  class User {
    var name: string
    var uid: string
    /** the stored password hash, never the plaintext */
    var passwordHash: string
    var dob: Date
    /** the bookings relationship (owned bookings) */
    var bookings: seq<Booking>
    /** the password-hashing primitive */
    const hash: string -> string

    /** `importDay` is the date the module was imported, the default for `dob`. */
    constructor (name: string, uid: string, hash: string -> string, importDay: Date,
                 password: string := DefaultPassword, dob: Date := importDay)
      ensures this.name == name && this.uid == uid && this.dob == dob
      ensures this.hash == hash && passwordHash == hash(password)
      ensures bookings == []
    {
      this.name := name;
      this.uid := uid;
      this.hash := hash;
      this.dob := dob;
      this.bookings := [];
      new;
      SetPassword(password);
    }

    method SetName(name: string)
      modifies this`name
      ensures this.name == name
    {
      this.name := name;
    }

    method SetUid(uid: string)
      modifies this`uid
      ensures this.uid == uid
    {
      this.uid := uid;
    }

    method SetDob(dob: Date)
      modifies this`dob
      ensures this.dob == dob
    {
      this.dob := dob;
    }

    function IsUid(x: string): (r: bool)
      reads this
      ensures r <==> x == uid
    {
      uid == x
    }

    /** is_password: whether `plain` hashes to the stored hash. */
    predicate IsPassword(plain: string): (r: bool)
      reads this
      ensures r <==> hash(plain) == passwordHash
    {
      hash(plain) == passwordHash
    }

    method SetPassword(password: string)
      modifies this`passwordHash
      ensures passwordHash == hash(password)
      ensures IsPassword(password)
    {
      passwordHash := hash(password);
    }

    /** The password property. */
    function Password(): (r: string)
      reads this
      ensures |r| <= 13 && r == PasswordPreview(passwordHash)
    {
      PasswordPreview(passwordHash)
    }

    /** The dob property, rendered MM-DD-YYYY. */
    function Dob(): (r: string)
      reads this
      ensures r == FormatDate(dob) && ParseDate(r) == Some(dob)
    {
      FormatDateRoundTrip(dob);
      FormatDate(dob)
    }

    /** The age property; `today` is the clock reading. */
    function Age(today: Date): (r: int)
      reads this
      ensures OnOrBefore(Anniversary(dob, r), today) && !OnOrBefore(Anniversary(dob, r + 1), today)
      ensures OnOrBefore(dob, today) ==> r >= 0
    {
      Dates.Age(dob, today)
    }

    function Read(today: Date): (r: UserSnapshot)
      reads this, bookings
      ensures r.name == name && r.uid == uid
      ensures r.dob == FormatDate(dob) && ParseDate(r.dob) == Some(dob)
      ensures OnOrBefore(Anniversary(dob, r.age), today) && !OnOrBefore(Anniversary(dob, r.age + 1), today)
      ensures |r.bookings| == |bookings|
      ensures forall i :: 0 <= i < |bookings| ==> r.bookings[i] == bookings[i].Read()
    {
      UserSnapshot(name, uid, Dob(), Age(today), ReadAll(bookings))
    }

    /** Overwrites each of name, uid and password whose replacement is non-empty. */
    method Update(name: string := "", uid: string := "", password: string := "") returns (r: User)
      modifies this`name, this`uid, this`passwordHash
      ensures r == this
      ensures this.name == Replaced(old(this.name), name)
      ensures this.uid == Replaced(old(this.uid), uid)
      ensures passwordHash == if |password| > 0 then hash(password) else old(passwordHash)
      ensures |password| > 0 ==> IsPassword(password)
      ensures |uid| > 0 ==> forall x :: IsUid(x) <==> x == uid
      ensures dob == old(dob) && bookings == old(bookings)
    {
      if |name| > 0 {
        SetName(name);
      }
      if |uid| > 0 {
        SetUid(uid);
      }
      if |password| > 0 {
        SetPassword(password);
      }
      r := this;
    }
  }

  class Booking {
    /** the primary key, given by the caller */
    const bookingid: string
    var travelername: string
    var uid: string
    var dob: Date
    var flightdate: Date
    var destination: string

    /** `importDay` is the date the module was imported, the default for both dates. */
    constructor (bookingid: string, travelername: string, uid: string, importDay: Date,
                 dob: Date := importDay, flightdate: Date := importDay,
                 destination: string := DefaultDestination)
      ensures this.bookingid == bookingid && this.travelername == travelername && this.uid == uid
      ensures this.dob == dob && this.flightdate == flightdate && this.destination == destination
    {
      this.bookingid := bookingid;
      this.travelername := travelername;
      this.uid := uid;
      this.dob := dob;
      this.flightdate := flightdate;
      this.destination := destination;
    }

    method SetTravelerName(travelername: string)
      modifies this`travelername
      ensures this.travelername == travelername
    {
      this.travelername := travelername;
    }

    method SetUid(uid: string)
      modifies this`uid
      ensures this.uid == uid
    {
      this.uid := uid;
    }

    method SetDob(dob: Date)
      modifies this`dob
      ensures this.dob == dob
    {
      this.dob := dob;
    }

    method SetDestination(destination: string)
      modifies this`destination
      ensures this.destination == destination
    {
      this.destination := destination;
    }

    method SetFlightDate(flightdate: Date)
      modifies this`flightdate
      ensures this.flightdate == flightdate
    {
      this.flightdate := flightdate;
    }

    function IsUid(x: string): (r: bool)
      reads this
      ensures r <==> Read().uid == x
    {
      uid == x
    }

    /** The dob property, rendered MM-DD-YYYY. */
    function Dob(): (r: string)
      reads this
      ensures r == FormatDate(dob) && ParseDate(r) == Some(dob)
    {
      FormatDateRoundTrip(dob);
      FormatDate(dob)
    }

    /** The flightdate property, rendered MM-DD-YYYY. */
    function FlightDate(): (r: string)
      reads this
      ensures r == FormatDate(flightdate) && ParseDate(r) == Some(flightdate)
      ensures flightdate.year >= 1000 ==> |r| == 10
    {
      FormatDateRoundTrip(flightdate);
      FormatDate(flightdate)
    }

    /** The snapshot echoes the fields, with the flight date as text and no dob. */
    function Read(): (r: BookingSnapshot)
      reads this
      ensures r.bookingid == bookingid && r.travelername == travelername && r.uid == uid
      ensures r.destination == destination
      ensures r.flightdate == FormatDate(flightdate) && ParseDate(r.flightdate) == Some(flightdate)
    {
      BookingSnapshot(bookingid, travelername, uid, FlightDate(), destination)
    }

    /** Overwrites each of travelername, uid and destination whose replacement is non-empty. */
    method Update(travelername: string := "", uid: string := "", destination: string := "") returns (r: Booking)
      modifies this`travelername, this`uid, this`destination
      ensures r == this
      ensures this.travelername == Replaced(old(this.travelername), travelername)
      ensures this.uid == Replaced(old(this.uid), uid)
      ensures this.destination == Replaced(old(this.destination), destination)
      ensures dob == old(dob) && flightdate == old(flightdate)
      ensures Read() == old(Read()).(travelername := this.travelername, uid := this.uid,
                                     destination := this.destination)
    {
      if |travelername| > 0 {
        SetTravelerName(travelername);
      }
      if |uid| > 0 {
        SetUid(uid);
      }
      if |destination| > 0 {
        SetDestination(destination);
      }
      r := this;
    }

    /** Inserts this booking unless its key is taken: returns this booking with the
        store grown by it, or null with the store unchanged. */
    method Create(store: BookingStore) returns (r: Booking?)
      requires store.Valid()
      modifies store`rows
      ensures store.Valid()
      ensures HasKey(old(store.rows), bookingid) ==> r == null && store.rows == old(store.rows)
      ensures !HasKey(old(store.rows), bookingid) ==> r == this && store.rows == old(store.rows) + [this]
      ensures CountKey(store.rows, bookingid) == 1
    {
      if HasKey(store.rows, bookingid) {
        UniqueKeyCount(store.rows, bookingid);
        r := null;
      } else {
        CountKeyAppend(store.rows, this, bookingid);
        store.rows := store.rows + [this];
        r := this;
      }
    }
  }

  /** The snapshots of a sequence of bookings, one per booking, in order. */
  function ReadAll(bs: seq<Booking>): (r: seq<BookingSnapshot>)
    reads bs
    ensures |r| == |bs|
    ensures forall i :: 0 <= i < |bs| ==> r[i] == bs[i].Read()
  {
    if bs == [] then [] else [bs[0].Read()] + ReadAll(bs[1..])
  }

  /** ReadAll is determined by the bookings' current snapshots. */
  lemma ReadAllIs(bs: seq<Booking>, snapshots: seq<BookingSnapshot>)
    requires |snapshots| == |bs|
    requires forall i :: 0 <= i < |bs| ==> snapshots[i] == bs[i].Read()
    ensures ReadAll(bs) == snapshots
  {
  }

  /** Appending a booking appends its snapshot. */
  lemma ReadAllAppend(bs: seq<Booking>, b: Booking)
    ensures ReadAll(bs + [b]) == ReadAll(bs) + [b.Read()]
  {
  }

  /** The bookings table: rows in insertion order, the booking id a primary key. */
  class BookingStore {
    var rows: seq<Booking>

    ghost predicate Valid()
      reads this
    {
      UniqueKeys(rows)
    }

    constructor ()
      ensures rows == [] && Valid()
    {
      rows := [];
    }
  }

  predicate HasKey(rows: seq<Booking>, key: string) {
    exists i :: 0 <= i < |rows| && rows[i].bookingid == key
  }

  predicate UniqueKeys(rows: seq<Booking>) {
    forall i, j :: 0 <= i < j < |rows| ==> rows[i].bookingid != rows[j].bookingid
  }

  /** The number of rows whose booking id is `key`. */
  function CountKey(rows: seq<Booking>, key: string): (n: nat)
    ensures n <= |rows|
    ensures n > 0 <==> HasKey(rows, key)
  {
    if rows == [] then 0
    else (if rows[0].bookingid == key then 1 else 0) + CountKey(rows[1..], key)
  }

  /** With unique keys, a key present in the store is held by exactly one row. */
  lemma {:induction false} UniqueKeyCount(rows: seq<Booking>, key: string)
    requires UniqueKeys(rows) && HasKey(rows, key)
    ensures CountKey(rows, key) == 1
  {
    if rows[0].bookingid == key {
      assert !HasKey(rows[1..], key);
    } else {
      UniqueKeyCount(rows[1..], key);
    }
  }

  /** Appending a row whose key is new keeps the keys unique and counts that key once. */
  lemma {:induction false} CountKeyAppend(rows: seq<Booking>, b: Booking, key: string)
    requires UniqueKeys(rows) && !HasKey(rows, key) && b.bookingid == key
    ensures UniqueKeys(rows + [b])
    ensures CountKey(rows + [b], key) == 1
  {
    if rows == [] {
      assert rows + [b] == [b];
    } else {
      assert (rows + [b])[1..] == rows[1..] + [b];
      CountKeyAppend(rows[1..], b, key);
    }
  }
}
