/**
 * The connection registry (`Database`): a slot-indexed table of instances,
 * each holding the selected configuration block and, once connected, a
 * driver handle. The driver is an oracle: a handle is an opaque value and a
 * query's outcome is supplied by the caller as an `Answer`.
 */
module Connections {
  import opened Common
  import opened PhpArrays

  const MAIN_CONNECTION: int := 0x1
  const SECOND_CONNECTION: int := 0x2
  /** Shares its value, and so its registry slot, with SECOND_CONNECTION. */
  const THIRD_CONNECTION: int := 0x2

  /** Registering under THIRD_CONNECTION replaces the SECOND_CONNECTION instance, and leaves the main one. */
  lemma ThirdReplacesSecond<D>(instances: map<int, D>, db: D)
    ensures instances[THIRD_CONNECTION := db][SECOND_CONNECTION] == db
    ensures MAIN_CONNECTION in instances ==>
      instances[THIRD_CONNECTION := db][MAIN_CONNECTION] == instances[MAIN_CONNECTION]
  {
  }

  /** One environment's block of the configuration. */
  datatype DbConfig = DbConfig(
    adapter: string, name: string, host: string, user: string, pass: string,
    port: int, charset: string)

  /** The configuration array; an absent (or null) entry is `None`. */
  datatype Config = Config(
    database: Option<map<string, DbConfig>>,
    currentDatabaseEnv: Option<string>)

  /** A null config is allowed; a non-null one needs both top-level entries. */
  predicate Accepted(config: Option<Config>) {
    config.None? || (config.value.database.Some? && config.value.currentDatabaseEnv.Some?)
  }

  /**
   * The block an accepted config leaves stored. An environment missing from
   * `database` reads as null (PHP warns and goes on), so nothing is stored.
   */
  function StoredConfig(config: Option<Config>): (stored: Option<DbConfig>)
    requires Accepted(config)
    ensures stored.Some? <==>
      config.Some? && config.value.currentDatabaseEnv.value in config.value.database.value
    ensures stored.Some? ==>
      stored.value == config.value.database.value[config.value.currentDatabaseEnv.value]
  {
    match config
    case None => None
    case Some(c) =>
      var env := c.currentDatabaseEnv.value;
      if env in c.database.value then Some(c.database.value[env]) else None
  }

  // ---------------------------------------------------------------------
  // The data source name

  function DigitChar(d: nat): char
    requires d < 10
  {
    "0123456789"[d]
  }

  function NaturalText(n: nat): string
    decreases n
  {
    if n < 10 then [DigitChar(n)] else NaturalText(n / 10) + [DigitChar(n % 10)]
  }

  /** `sprintf('%d', n)` */
  function DecimalText(n: int): string {
    if n < 0 then "-" + NaturalText(-n) else NaturalText(n)
  }

  function DigitValue(c: char): nat {
    if '0' <= c <= '9' then (c - '0') as nat else 0
  }

  /** Reads a string of decimal digits back as a number. */
  function NaturalValue(s: string): nat {
    if |s| == 0 then 0 else 10 * NaturalValue(s[..|s| - 1]) + DigitValue(s[|s| - 1])
  }

  /** Reads an optionally signed decimal integer. */
  function DecimalValue(s: string): int {
    if |s| > 0 && s[0] == '-' then -(NaturalValue(s[1..]) as int) else NaturalValue(s)
  }

  predicate AllDigits(s: string) {
    forall i | 0 <= i < |s| :: '0' <= s[i] <= '9'
  }

  lemma {:induction false} NaturalRoundTrip(n: nat)
    ensures AllDigits(NaturalText(n)) && |NaturalText(n)| > 0
    ensures NaturalValue(NaturalText(n)) == n
    decreases n
  {
    if n >= 10 {
      NaturalRoundTrip(n / 10);
      var s := NaturalText(n);
      assert s[..|s| - 1] == NaturalText(n / 10);
      assert DigitValue(s[|s| - 1]) == n % 10;
    } else {
      assert DigitValue(DigitChar(n)) == n;
    }
  }

  lemma DigitsOnly(s: string)
    requires AllDigits(s)
    ensures ';' !in s && '-' !in s
  {
  }

  /** The port is written as a plain decimal integer that reads back as the port. */
  lemma DecimalRoundTrip(n: int)
    ensures DecimalValue(DecimalText(n)) == n
    ensures ';' !in DecimalText(n)
  {
    if n < 0 {
      var t := NaturalText(-n);
      NaturalRoundTrip(-n);
      DigitsOnly(t);
      var d := DecimalText(n);
      assert d == "-" + t;
      assert d[0] == '-' && d[1..] == t;
      assert ';' !in d;
    } else {
      var t := NaturalText(n);
      NaturalRoundTrip(n);
      DigitsOnly(t);
      assert t[0] != '-';
    }
  }

  /**
   * The DSN handed to the driver when connecting: the adapter names the
   * driver, and the charset setting comes last.
   */
  function Dsn(c: DbConfig): (d: string)
    ensures |d| >= |c.adapter| + 8 && d[..|c.adapter| + 8] == c.adapter + ":dbname="
    ensures |d| >= |c.charset| + 9 && d[|d| - |c.charset| - 9..] == ";charset=" + c.charset
  {
    c.adapter + ":dbname=" + c.name + ";host=" + c.host
      + ";port=" + DecimalText(c.port) + ";charset=" + c.charset
  }

  /** `explode(sep, s)` */
  function Split(s: string, sep: char): (parts: seq<string>)
    ensures |parts| > 0
  {
    if |s| == 0 then [""]
    else
      var rest := Split(s[1..], sep);
      if s[0] == sep then [""] + rest else [[s[0]] + rest[0]] + rest[1..]
  }

  lemma {:induction false} SplitPlain(a: string, sep: char)
    requires sep !in a
    ensures Split(a, sep) == [a]
  {
    if |a| > 0 {
      SplitPlain(a[1..], sep);
      assert [a[0]] + a[1..] == a;
    }
  }

  lemma {:induction false} SplitAfter(a: string, sep: char, b: string)
    requires sep !in a
    ensures Split(a + [sep] + b, sep) == [a] + Split(b, sep)
  {
    if |a| == 0 {
      assert a + [sep] + b == [sep] + b;
      assert ([sep] + b)[1..] == b;
    } else {
      assert (a + [sep] + b)[1..] == a[1..] + [sep] + b;
      SplitAfter(a[1..], sep, b);
      assert [a[0]] + a[1..] == a;
    }
  }

  lemma DsnGrouping(c: DbConfig)
    ensures Dsn(c) == (c.adapter + ":dbname=" + c.name) + [';'] + (("host=" + c.host) + [';']
      + (("port=" + DecimalText(c.port)) + [';'] + ("charset=" + c.charset)))
  {
    var p := DecimalText(c.port);
    assert ";charset=" + c.charset == [';'] + ("charset=" + c.charset);
    assert ";port=" + p == [';'] + ("port=" + p);
    assert ";host=" + c.host == [';'] + ("host=" + c.host);
  }

  /**
   * When no text field holds a `;`, the DSN splits into exactly its four
   * settings, in order: the driver reads back the fields it was given.
   */
  lemma DsnSettings(c: DbConfig)
    requires ';' !in c.adapter && ';' !in c.name && ';' !in c.host && ';' !in c.charset
    ensures Split(Dsn(c), ';') ==
      [c.adapter + ":dbname=" + c.name, "host=" + c.host,
       "port=" + DecimalText(c.port), "charset=" + c.charset]
  {
    var first, hostPart := c.adapter + ":dbname=" + c.name, "host=" + c.host;
    var portPart, charsetPart := "port=" + DecimalText(c.port), "charset=" + c.charset;
    DecimalRoundTrip(c.port);
    var tail2 := portPart + [';'] + charsetPart;
    var tail1 := hostPart + [';'] + tail2;
    DsnGrouping(c);
    SplitPlain(charsetPart, ';');
    SplitAfter(portPart, ';', charsetPart);
    SplitAfter(hostPart, ';', tail2);
    SplitAfter(first, ';', tail1);
  }

  // ---------------------------------------------------------------------
  // Instances and the registry

  /** An open driver connection, identified by the arguments it was opened with. */
  datatype Handle = Pdo(dsn: string, user: string, pass: string)

  /** What the driver reports about an executed statement. */
  datatype Reply = Reply(rowCount: int, errorCode: string, rows: seq<Row>, lastInsertId: string)

  /** The driver's answer to a statement: an exception, or a reply. */
  datatype Answer = Raised(message: string) | Replied(reply: Reply)

  /** The result of `query` on a connected instance. */
  function Delivered(answer: Answer): (r: Result<Reply, Error>)
    ensures r.Ok? <==> answer.Replied?
  {
    match answer
    case Raised(m) => Err(DriverError(m))
    case Replied(rep) => Ok(rep)
  }

  class Database {
    var dbConfig: Option<DbConfig>
    var connection: Option<Handle>

    /** The part of the PHP constructor that sets fields; validation and registration are in `Registry.NewDatabase`. */
    constructor (stored: Option<DbConfig>)
      ensures dbConfig == stored && connection == None
    {
      dbConfig, connection := stored, None;
    }

    /** `disconnect` (also what the destructor does): the handle is dropped. */
    method Disconnect()
      modifies this`connection
      ensures connection == None
    {
      if connection != None {
        connection := None;
      }
    }

    /**
     * `connect`: without a stored config a LogicException; otherwise the
     * driver is opened on `Dsn`, and a driver refusal propagates unchanged.
     */
    method Connect(refusal: Option<string>) returns (r: Result<(), Error>)
      modifies this`connection
      ensures dbConfig.None? ==> r == Err(NoConfig) && connection == old(connection)
      ensures dbConfig.Some? && refusal.Some? ==>
        r == Err(DriverError(refusal.value)) && connection == old(connection)
      ensures dbConfig.Some? && refusal.None? ==> (r == Ok(()) &&
        connection == Some(Pdo(Dsn(dbConfig.value), dbConfig.value.user, dbConfig.value.pass)))
    {
      if dbConfig == None {
        return Err(NoConfig);
      }
      var c := dbConfig.value;
      var dsn := c.adapter + ":dbname=" + c.name + ";host=" + c.host
        + ";port=" + DecimalText(c.port) + ";charset=" + c.charset;
      if refusal.Some? {
        return Err(DriverError(refusal.value));
      }
      connection := Some(Pdo(dsn, c.user, c.pass));
      r := Ok(());
    }

    /** `setConnection` */
    method SetConnection(h: Handle)
      modifies this`connection
      ensures connection == Some(h)
    {
      connection := Some(h);
    }

    /** `getConnection`: the handle, or an exception while there is none. */
    function GetConnection(): (r: Result<Handle, Error>)
      reads this
      ensures r.Ok? <==> connection.Some?
      ensures r.Ok? ==> r.value == connection.value
      ensures r.Err? ==> r.error == NotConnected
    {
      if connection.None? then Err(NotConnected) else Ok(connection.value)
    }

    /**
     * `query`: refuses while not connected; otherwise the driver prepares and
     * executes `text` with `binds` and `answer` is what it reports. The
     * method never yields a null statement: driver failures are exceptions.
     */
    method Query(text: string, binds: seq<Value>, answer: Answer) returns (r: Result<Reply, Error>)
      ensures connection.None? ==> r == Err(NotConnected)
      ensures connection.Some? ==> r == Delivered(answer)
    {
      if connection == None {
        return Err(NotConnected);
      }
      r := Delivered(answer);
    }
  }

  /** The static `$instances` table of `Database`. */
  class Registry {
    var instances: map<int, Database>

    constructor ()
      ensures instances == map[]
    {
      instances := map[];
    }

    /**
     * `new Database($config, $slot)`: a malformed non-null config throws
     * before anything is registered; otherwise the selected block is stored
     * and the new instance takes the slot, replacing any earlier one.
     */
    method NewDatabase(config: Option<Config>, slot: int) returns (r: Result<Database, Error>)
      modifies this
      ensures !Accepted(config) ==> r == Err(InvalidConfig) && instances == old(instances)
      ensures Accepted(config) ==> (r.Ok? && fresh(r.value)
        && r.value.dbConfig == StoredConfig(config) && r.value.connection == None
        && instances == old(instances)[slot := r.value])
    {
      if !Accepted(config) {
        return Err(InvalidConfig);
      }
      var db := new Database(StoredConfig(config));
      instances := instances[slot := db];
      r := Ok(db);
    }

    /** `getInstance`: the last instance registered in the slot, or an exception. */
    function GetInstance(slot: int): (r: Result<Database, Error>)
      reads this
      ensures r.Ok? <==> slot in instances
      ensures r.Ok? ==> r.value == instances[slot]
      ensures r.Err? ==> r.error == NeverCreated(slot)
    {
      if slot in instances then Ok(instances[slot]) else Err(NeverCreated(slot))
    }
  }

  /**
   * A client of the registry: what callers can rely on from the contracts
   * above alone.
   */
  method LifecycleScenario(block: DbConfig, h: Handle) {
    var reg := new Registry();
    var config := Some(Config(Some(map["test" := block]), Some("test")));

    var missing := reg.GetInstance(MAIN_CONNECTION);
    assert missing == Err(NeverCreated(MAIN_CONNECTION));

    var bad := reg.NewDatabase(Some(Config(None, Some("test"))), MAIN_CONNECTION);
    assert bad == Err(InvalidConfig) && reg.instances == map[];

    var r2 := reg.NewDatabase(config, SECOND_CONNECTION);
    var r3 := reg.NewDatabase(None, THIRD_CONNECTION);
    var second, third := r2.value, r3.value;
    assert second != third;
    // the third slot is the second one: the later instance replaced the earlier
    assert reg.GetInstance(SECOND_CONNECTION) == Ok(third);

    var noConfig := third.Connect(None);
    assert noConfig == Err(NoConfig);
    assert second.GetConnection() == Err(NotConnected);
    var ok := second.Connect(None);
    assert ok == Ok(()) && second.GetConnection() == Ok(Pdo(Dsn(block), block.user, block.pass));

    second.Disconnect();
    second.Disconnect();
    assert second.GetConnection() == Err(NotConnected);

    third.SetConnection(h);
    assert third.GetConnection() == Ok(h);
  }
}
