/** The server registry of api/server.rs: named targets `name -> {name, ip, port}`,
    created and deleted by name, and rendered as `ip:port`. */
module Servers {
  import opened Wrappers
  import opened Uuids

  datatype Server = Server(name: string, ip: string, port: U16)

  // ----- Decimal text of a port -----

  function DigitChar(d: nat): (c: char)
    requires d < 10
    ensures IsDigit(c)
  {
    (('0' as int) + d) as char
  }

  predicate IsDigit(c: char) {
    '0' <= c <= '9'
  }

  predicate AllDigits(s: string) {
    forall i :: 0 <= i < |s| ==> IsDigit(s[i])
  }

  /** Decimal text of `n`, without leading zeros, as `{}` formats an integer. */
  function Decimal(n: nat): (s: string)
    ensures |s| >= 1 && AllDigits(s)
  {
    if n < 10 then [DigitChar(n)] else Decimal(n / 10) + [DigitChar(n % 10)]
  }

  /** The value of a string of decimal digits. */
  function DecimalValue(s: string): nat
    requires AllDigits(s)
  {
    if s == [] then 0
    else DecimalValue(s[..|s| - 1]) * 10 + ((s[|s| - 1] as int) - ('0' as int))
  }

  lemma {:induction false} DecimalRoundTrip(n: nat)
    ensures DecimalValue(Decimal(n)) == n
  {
    if n >= 10 {
      var s := Decimal(n);
      assert s[..|s| - 1] == Decimal(n / 10);
      DecimalRoundTrip(n / 10);
    }
  }

  // ----- Display for Server -----

  /** `Display for Server`: `ip:port`. */
  function Display(s: Server): string {
    s.ip + ":" + Decimal(s.port)
  }

  /** Position of the last occurrence of `c` in `t`, if any. */
  function LastIndexOf(t: string, c: char): (r: Option<nat>)
    ensures r.Some? ==> r.value < |t| && t[r.value] == c
    ensures r.Some? ==> forall j :: r.value < j < |t| ==> t[j] != c
    ensures r.None? ==> forall j :: 0 <= j < |t| ==> t[j] != c
  {
    if t == [] then None
    else if t[|t| - 1] == c then Some(|t| - 1)
    else LastIndexOf(t[..|t| - 1], c)
  }

  /** Reads `host:port` back, splitting at the last colon (the host may itself
      contain colons; the port never does). */
  function SplitAddress(t: string): Option<(string, nat)> {
    match LastIndexOf(t, ':')
    case None => None
    case Some(i) =>
      var p := t[i + 1..];
      if p != [] && AllDigits(p) then Some((t[..i], DecimalValue(p))) else None
  }

  /** The rendering is unambiguous: the host and the port are recovered from it. */
  lemma DisplayRoundTrip(s: Server)
    ensures SplitAddress(Display(s)) == Some((s.ip, s.port as nat))
  {
    var t := Display(s);
    var d := Decimal(s.port);
    var k := |s.ip|;
    assert t[k] == ':';
    assert t[k + 1..] == d;
    assert forall j :: k < j < |t| ==> t[j] != ':' by {
      forall j | k < j < |t| ensures t[j] != ':' {
        assert t[j] == d[j - k - 1];
      }
    }
    var i := LastIndexOf(t, ':');
    assert i == Some(k);
    assert t[..k] == s.ip;
    DecimalRoundTrip(s.port);
  }

  // ----- The registry -----

  /** The outcome of `save`: writing the whole list to disk, whose failure is
      passed in as its error text. */
  function SaveOutcome(saveError: Option<string>): (r: Result<Unit, string>)
    ensures r.Err? <==> saveError.Some?
    ensures r.Err? ==> r.error == saveError.value
  {
    match saveError
    case None => Ok(Unit)
    case Some(e) => Err(e)
  }

  /** `List` of api/server.rs: the name-keyed server map. */
  class ServerList {
    var servers: map<string, Server>

    /** `List::from_file` with the parsed file content given (empty when the
        file is missing or malformed). */
    constructor (loaded: map<string, Server>)
      ensures servers == loaded
    {
      servers := loaded;
    }

    /** `get_server`: a plain key lookup. */
    function GetServer(name: string): (r: Option<Server>)
      reads this
      ensures r.Some? <==> name in servers
      ensures r.Some? ==> r.value == servers[name]
    {
      if name in servers then Some(servers[name]) else None
    }

    /** `create`: refuse a taken name, otherwise insert and save. */
    method Create(name: string, ip: string, port: U16, saveError: Option<string>)
      returns (r: Result<Unit, string>)
      modifies this
      ensures name in old(servers) ==>
        r == Err("Server " + name + " already exists") && servers == old(servers)
      ensures name !in old(servers) ==>
        servers == old(servers)[name := Server(name, ip, port)] && r == SaveOutcome(saveError)
    {
      if name in servers {
        return Err("Server " + name + " already exists");
      }
      servers := servers[name := Server(name, ip, port)];
      r := SaveOutcome(saveError);
    }

    /** `delete`: refuse an unknown name, otherwise remove it and save. */
    method Delete(name: string, saveError: Option<string>) returns (r: Result<Unit, string>)
      modifies this
      ensures name !in old(servers) ==>
        r == Err("Server " + name + " does not exist") && servers == old(servers)
      ensures name in old(servers) ==>
        servers == old(servers) - {name} && r == SaveOutcome(saveError)
    {
      if name !in servers {
        return Err("Server " + name + " does not exist");
      }
      servers := servers - {name};
      r := SaveOutcome(saveError);
    }
  }

  /** A `create` of a new name followed by a `delete` of it leaves the list
      as it was, and both report the outcome of their save. */
  method CreateThenDelete(list: ServerList, name: string, ip: string, port: U16,
                          createError: Option<string>, deleteError: Option<string>)
    returns (created: Result<Unit, string>, deleted: Result<Unit, string>)
    modifies list
    ensures name !in old(list.servers) ==>
      list.servers == old(list.servers) && created == SaveOutcome(createError) && deleted == SaveOutcome(deleteError)
  {
    created := list.Create(name, ip, port, createError);
    deleted := list.Delete(name, deleteError);
    if name !in old(list.servers) {
      assert list.servers.Keys == old(list.servers).Keys;
    }
  }
}
