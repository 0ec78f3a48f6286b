/** The two database tables of the backend (application/backend/models.py):
    users, keyed by their integer primary key, and tracker entries, kept
    in insertion order. Dates are day numbers. */
module Tables {

  import opened Wrappers

  /** A row of the `users` table; the key of the map is its `id`. */
  datatype User = User(
    username: string,
    email: string,
    hashedPassword: string,
    fullName: Option<string>,
    gender: Option<string>,
    birthDate: Option<nat>,
    profileImage: Option<string>)

  type Users = map<int, User>

  /** The eight wellness measurements a user submits for one day. */
  datatype TrackerInput = TrackerInput(
    sleepHours: real,
    sleepQuality: string,
    screenTime: real,
    physicalActivity: int,
    socialInteraction: real,
    workProductivity: int,
    weather: string,
    dietQuality: string)

  /** A row of the `tracker_entries` table. */
  datatype Entry = Entry(
    userId: int,
    date: nat,
    input: TrackerInput,
    moodScore: real,
    stressLevel: real,
    aiRecommendation: string)

  /** The `unique=True` constraints on `username` and `email`. */
  predicate UniqueUsernames(users: Users) {
    forall a, b :: a in users && b in users && users[a].username == users[b].username ==> a == b
  }

  predicate UniqueEmails(users: Users) {
    forall a, b :: a in users && b in users && users[a].email == users[b].email ==> a == b
  }

  predicate Unique(users: Users) {
    UniqueUsernames(users) && UniqueEmails(users)
  }

  predicate UsernameTaken(users: Users, name: string) {
    exists id :: id in users && users[id].username == name
  }

  predicate EmailTaken(users: Users, email: string) {
    exists id :: id in users && users[id].email == email
  }

  /** Every non-empty finite set of integers has a least element. The set
      is given non-empty through an element of it. */
  lemma {:induction false} MinExists(s: set<int>, x: int)
    requires x in s
    ensures exists m :: m in s && forall k :: k in s ==> m <= k
    decreases s
  {
    var rest := s - {x};
    if y :| y in rest {
      MinExists(rest, y);
      var m :| m in rest && forall k :: k in rest ==> m <= k;
      if x <= m {
        assert forall k :: k in s ==> x <= k by {
          forall k | k in s ensures x <= k {
            if k != x { assert k in rest; }
          }
        }
      } else {
        assert forall k :: k in s ==> m <= k by {
          forall k | k in s ensures m <= k {
            if k != x { assert k in rest; }
          }
        }
      }
    } else {
      assert forall k :: k in s ==> k == x by {
        forall k | k in s ensures k == x {
          assert k !in rest;
        }
      }
    }
  }

  /** The least element of a non-empty set of keys. */
  function MinKey(s: set<int>): (m: int)
    requires exists k :: k in s
    ensures m in s
    ensures forall k :: k in s ==> m <= k
  {
    var x :| x in s;
    MinExists(s, x);
    var m :| m in s && forall k :: k in s ==> m <= k;
    m
  }

  /** The greatest key of a table, or 0 for an empty one. */
  function MaxKey(users: Users): (m: int)
    ensures forall k :: k in users ==> k <= m
  {
    if k :| k in users then
      var negated := set k | k in users :: -k;
      assert -k in negated;
      assert forall k :: k in users ==> -k in negated;
      -MinKey(negated)
    else 0
  }

  /** The primary key the database gives the next inserted user. */
  function FreshId(users: Users): (id: int)
    ensures id !in users
  {
    MaxKey(users) + 1
  }

  /** `query(User).filter(User.username == name).first()`: the row with the
      lowest key among those matching. */
  function FindByUsername(users: Users, name: string): (r: Option<int>)
    ensures r.Some? <==> UsernameTaken(users, name)
    ensures r.Some? ==> r.value in users && users[r.value].username == name
    ensures r.Some? ==> forall k :: k in users && users[k].username == name ==> r.value <= k
  {
    var matching := set k | k in users && users[k].username == name;
    assert forall k :: k in users && users[k].username == name ==> k in matching;
    if k :| k in matching then Some(MinKey(matching)) else None
  }

  /** `query(User).filter(User.email == email).first()`. */
  function FindByEmail(users: Users, email: string): (r: Option<int>)
    ensures r.Some? <==> EmailTaken(users, email)
    ensures r.Some? ==> r.value in users && users[r.value].email == email
    ensures r.Some? ==> forall k :: k in users && users[k].email == email ==> r.value <= k
  {
    var matching := set k | k in users && users[k].email == email;
    assert forall k :: k in users && users[k].email == email ==> k in matching;
    if k :| k in matching then Some(MinKey(matching)) else None
  }

  /** The entries of one user, in table order. */
  function EntriesOf(entries: seq<Entry>, userId: int): (r: seq<Entry>)
    ensures |r| <= |entries|
    ensures forall e :: e in r <==> e in entries && e.userId == userId
    ensures multiset(r) <= multiset(entries)
  {
    if entries == [] then []
    else
      assert entries == [entries[0]] + entries[1..];
      if entries[0].userId == userId then [entries[0]] + EntriesOf(entries[1..], userId)
    else EntriesOf(entries[1..], userId)
  }

  /** The filter keeps each entry of the user as many times as the table
      holds it, and no entry of anyone else. */
  lemma {:induction false} EntriesOfCounts(entries: seq<Entry>, userId: int, x: Entry)
    ensures multiset(EntriesOf(entries, userId))[x] == if x.userId == userId then multiset(entries)[x] else 0
    decreases |entries|
  {
    if entries != [] {
      EntriesOfCounts(entries[1..], userId, x);
      assert entries == [entries[0]] + entries[1..];
      assert multiset(entries) == multiset{entries[0]} + multiset(entries[1..]);
    }
  }

  /** At most one entry per user per day. */
  predicate OnePerDay(entries: seq<Entry>) {
    forall i, j :: 0 <= i < j < |entries| && entries[i].userId == entries[j].userId
      ==> entries[i].date != entries[j].date
  }

  predicate HasEntryOn(entries: seq<Entry>, userId: int, day: nat) {
    exists e :: e in entries && e.userId == userId && e.date == day
  }

  lemma OnePerDayTail(entries: seq<Entry>)
    requires entries != [] && OnePerDay(entries)
    ensures OnePerDay(entries[1..])
  {
    var t := entries[1..];
    forall i, j | 0 <= i < j < |t| && t[i].userId == t[j].userId
      ensures t[i].date != t[j].date
    {
      assert t[i] == entries[i + 1] && t[j] == entries[j + 1];
    }
  }

  /** The first entry's day differs from every later entry of its user. */
  lemma OnePerDayHead(entries: seq<Entry>)
    requires entries != [] && OnePerDay(entries)
    ensures forall x :: x in entries[1..] && x.userId == entries[0].userId ==> x.date != entries[0].date
  {
    forall x | x in entries[1..] && x.userId == entries[0].userId
      ensures x.date != entries[0].date
    {
      var k :| 0 <= k < |entries[1..]| && entries[1..][k] == x;
      assert entries[k + 1] == x;
    }
  }

  lemma OnePerDayCons(e: Entry, rest: seq<Entry>)
    requires OnePerDay(rest)
    requires forall x :: x in rest && x.userId == e.userId ==> x.date != e.date
    ensures OnePerDay([e] + rest)
  {
    var r := [e] + rest;
    forall i, j | 0 <= i < j < |r| && r[i].userId == r[j].userId
      ensures r[i].date != r[j].date
    {
      if i == 0 {
        assert r[j] == rest[j - 1];
        assert r[j] in rest;
      } else {
        assert r[i] == rest[i - 1] && r[j] == rest[j - 1];
      }
    }
  }
}
