/**
 * The random token generator of the newer code (Help/Token.php): a token
 * is `length` characters drawn from `symbols`; a unique token is the first
 * of at most `token_generate_max_tries` candidates that no row of the
 * target column holds yet.
 *
 * `mt_rand` is an oracle: `draw(i)` is the outcome of `mt_rand(1, symLen)`
 * for position `i`, and `draws(t, i)` the one for position `i` of try `t`.
 * The database is the predicate `rowExists(table, field, value)`, which
 * the generator only reads.
 */
module Tokens {
  import opened Wrappers
  import opened Php
  import opened Errors

  const DefaultSymbols: string := "ABCDEFGHIJKLMNOPQRSTUVWXYZabcdefghijklmnopqrstuvwxyz0123456789"
  const DefaultTokenLength: int := 30
  const DefaultMaxTries: int := 20

  /** The named properties the constructor may overwrite. */
  datatype Props = Props(symbols: Option<string>, tokenLength: Option<int>, maxTries: Option<int>)

  /** The first argument of generateUniqueIn: a table name, a list
      [table, field], or anything else. */
  datatype Target = TableName(table: string) | List(items: seq<string>) | Other

  /** Where generateUniqueIn looks for collisions, or None when it rejects
      its argument: a bare table name means that table's `token` column. */
  function Resolve(target: Target): (r: Option<(string, string)>)
  {
    match target
    case TableName(t) => Some((t, "token"))
    case List(items) => if |items| == 2 then Some((items[0], items[1])) else None
    case Other => None
  }

  /** The length generate uses: a null or zero argument means the default. */
  function EffectiveLength(length: Option<int>, tokenLength: int): int
  {
    if length.None? || length.value == 0 then tokenLength else length.value
  }

  /** The characters the draws pick, one per position; a length below one
      gives the empty token. */
  function Spelled(symbols: string, n: int, draw: nat -> int): (token: string)
    requires forall i :: 0 <= i < n ==> 1 <= draw(i) <= |symbols|
  {
    if n <= 0 then "" else seq(n, i requires 0 <= i < n => symbols[draw(i) - 1])
  }

  /** The candidate of try `t`. */
  function Candidate(symbols: string, n: int, draws: (nat, nat) -> int, t: nat): string
    requires forall i :: 0 <= i < n ==> 1 <= draws(t, i) <= |symbols|
  {
    Spelled(symbols, n, (i: nat) => draws(t, i))
  }

  predicate DrawsInRange(symbols: string, n: int, draws: (nat, nat) -> int, maxTries: int)
  {
    forall t, i :: 0 <= t < maxTries && 0 <= i < n ==> 1 <= draws(t, i) <= |symbols|
  }

  /** The outcome of the tries from `t` on: the first candidate absent from
      the column, or the exhaustion error once every try has collided. */
  function FirstUnique(symbols: string, n: int, draws: (nat, nat) -> int, maxTries: int,
                       rowExists: (string, string, string) -> bool, table: string, field: string, t: nat)
    : (r: Result<string, AuthError>)
    requires DrawsInRange(symbols, n, draws, maxTries)
    decreases maxTries - t
    ensures r.Err? <==> forall j :: t <= j < maxTries ==> rowExists(table, field, Candidate(symbols, n, draws, j))
    ensures r.Err? ==> r.error == Build("token_exceeed_max_try_generated", [])
  {
    if t >= maxTries then Err(Build("token_exceeed_max_try_generated", []))
    else if !rowExists(table, field, Candidate(symbols, n, draws, t)) then Ok(Candidate(symbols, n, draws, t))
    else FirstUnique(symbols, n, draws, maxTries, rowExists, table, field, t + 1)
  }

  /** A token found is the candidate of some try `k`, free in the column,
      and every earlier try collided. */
  lemma {:induction false} FirstUniqueFound(symbols: string, n: int, draws: (nat, nat) -> int, maxTries: int,
                                            rowExists: (string, string, string) -> bool, table: string, field: string, t: nat)
    returns (k: nat)
    requires DrawsInRange(symbols, n, draws, maxTries)
    requires FirstUnique(symbols, n, draws, maxTries, rowExists, table, field, t).Ok?
    decreases maxTries - t
    ensures t <= k < maxTries
    ensures FirstUnique(symbols, n, draws, maxTries, rowExists, table, field, t) == Ok(Candidate(symbols, n, draws, k))
    ensures !rowExists(table, field, Candidate(symbols, n, draws, k))
    ensures forall j :: t <= j < k ==> rowExists(table, field, Candidate(symbols, n, draws, j))
  {
    if !rowExists(table, field, Candidate(symbols, n, draws, t)) {
      k := t;
    } else {
      k := FirstUniqueFound(symbols, n, draws, maxTries, rowExists, table, field, t + 1);
    }
  }

  /** With no tries allowed the generator always gives up. */
  lemma NoTriesAlwaysFails(symbols: string, n: int, draws: (nat, nat) -> int, maxTries: int,
                           rowExists: (string, string, string) -> bool, table: string, field: string)
    requires maxTries <= 0
    ensures FirstUnique(symbols, n, draws, maxTries, rowExists, table, field, 0)
      == Err(Build("token_exceeed_max_try_generated", []))
  {
  }

  /** Against an empty column the first candidate is taken. */
  lemma EmptyColumnTakesFirst(symbols: string, n: int, draws: (nat, nat) -> int, maxTries: int,
                              rowExists: (string, string, string) -> bool, table: string, field: string)
    requires DrawsInRange(symbols, n, draws, maxTries) && maxTries >= 1
    requires forall v :: !rowExists(table, field, v)
    ensures FirstUnique(symbols, n, draws, maxTries, rowExists, table, field, 0)
      == Ok(Candidate(symbols, n, draws, 0))
  {
  }

  class Token {
    var symbols: string
    var tokenLength: int
    var maxTries: int

    /** The defaults, with exactly the named properties overwritten. */
    constructor (props: Props)
      ensures symbols == (if props.symbols.Some? then props.symbols.value else DefaultSymbols)
      ensures tokenLength == (if props.tokenLength.Some? then props.tokenLength.value else DefaultTokenLength)
      ensures maxTries == (if props.maxTries.Some? then props.maxTries.value else DefaultMaxTries)
    {
      symbols := DefaultSymbols;
      tokenLength := DefaultTokenLength;
      maxTries := DefaultMaxTries;
      new;
      if props.symbols.Some? { symbols := props.symbols.value; }
      if props.tokenLength.Some? { tokenLength := props.tokenLength.value; }
      if props.maxTries.Some? { maxTries := props.maxTries.value; }
    }

    /** generate: a token of the requested length (the default for null or
        0), each character picked from `symbols` by one draw. */
    method Generate(length: Option<int>, draw: nat -> int) returns (token: string)
      requires forall i :: 0 <= i < EffectiveLength(length, tokenLength) ==> 1 <= draw(i) <= |symbols|
      ensures var n := EffectiveLength(length, tokenLength); |token| == (if n < 0 then 0 else n)
      ensures forall i :: 0 <= i < |token| ==> token[i] == symbols[draw(i) - 1] && token[i] in symbols
      ensures token == Spelled(symbols, EffectiveLength(length, tokenLength), draw)
    {
      var n := EffectiveLength(length, tokenLength);
      token := "";
      var i := 0;
      while i < n
        invariant 0 <= i && (n >= 0 ==> i <= n) && (n < 0 ==> i == 0)
        invariant |token| == i
        invariant forall k :: 0 <= k < i ==> token[k] == symbols[draw(k) - 1]
      {
        token := token + [symbols[draw(i) - 1]];
        i := i + 1;
      }
    }

    /** generateUniqueIn: rejects a malformed target before any lookup;
        otherwise the first candidate the column does not hold, or the
        exhaustion error when all `maxTries` candidates collide. */
    method GenerateUniqueIn(target: Target, length: Option<int>, draws: (nat, nat) -> int,
                            rowExists: (string, string, string) -> bool)
      returns (r: Result<string, AuthError>)
      requires DrawsInRange(symbols, EffectiveLength(length, tokenLength), draws, maxTries)
      ensures Resolve(target).None? ==> r == Err(InvalidArgument)
      ensures Resolve(target).Some? ==>
        r == FirstUnique(symbols, EffectiveLength(length, tokenLength), draws, maxTries,
                         rowExists, Resolve(target).value.0, Resolve(target).value.1, 0)
    {
      var place := Resolve(target);
      if place.None? {
        return Err(InvalidArgument);
      }
      var (table, field) := place.value;
      ghost var n := EffectiveLength(length, tokenLength);
      var try := 0;
      var token := "";
      while try < maxTries
        invariant 0 <= try
        invariant FirstUnique(symbols, n, draws, maxTries, rowExists, table, field, try)
          == FirstUnique(symbols, n, draws, maxTries, rowExists, table, field, 0)
      {
        token := Generate(length, (i: nat) => draws(try, i));
        assert token == Candidate(symbols, n, draws, try);
        if !rowExists(table, field, token) {
          assert FirstUnique(symbols, n, draws, maxTries, rowExists, table, field, try) == Ok(token);
          break;
        }
        try := try + 1;
      }
      if try >= maxTries {
        return Err(Build("token_exceeed_max_try_generated", []));
      }
      r := Ok(token);
    }
  }
}
