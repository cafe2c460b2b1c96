/** The dashboard's "Recent Transactions" list: the query that feeds it and
    the rule each row follows. Amount digits (`Intl.NumberFormat`) and the
    relative date are left abstract: a row carries the sign it prints and the
    magnitude it formats. */
module TransactionList {
  import opened Wrappers
  import AuthStore

  datatype TxType = Credit | Debit | Transfer

  /** A row of the `transactions` table. */
  datatype Transaction = Transaction(
    id: string,
    txType: TxType,
    amount: real,
    description: string,
    recipientName: Option<string>,
    status: string,
    createdAt: string)

  /** The query runs only for a user with a non-empty id (`enabled: !!user?.id`). */
  predicate QueryEnabled(user: Option<AuthStore.User>) {
    user.Some? && user.value.id != ""
  }

  /** What the provider answers to the `transactions` select. */
  datatype Fetch = FetchedRows(rows: seq<Transaction>) | FetchError

  datatype QueryResult = Data(rows: seq<Transaction>) | Thrown

  /** `queryFn`: no id gives an empty list without asking the provider; a
      provider error is thrown; otherwise the rows are the data. */
  function QueryFn(user: Option<AuthStore.User>, fetch: Fetch): (r: QueryResult)
    ensures !QueryEnabled(user) ==> r == Data([])
    ensures QueryEnabled(user) ==> (r.Thrown? <==> fetch.FetchError?)
    ensures QueryEnabled(user) && fetch.FetchedRows? ==> r == Data(fetch.rows)
  {
    if !QueryEnabled(user) then Data([])
    else match fetch
      case FetchError => Thrown
      case FetchedRows(rows) => Data(rows)
  }

  /** The variable part of the query key `['transactions', user?.id]`:
      absent without a user. */
  function QueryKey(user: Option<AuthStore.User>): (key: Option<string>)
    ensures key.Some? <==> user.Some?
    ensures user.Some? ==> key.value == user.value.id
  {
    match user
    case Some(u) => Some(u.id)
    case None => None
  }

  /** A key the query can be enabled for: a present, non-empty user id. */
  predicate LiveKey(key: Option<string>) {
    key.Some? && key.value != ""
  }

  /** The query cache: the data stored under each key. A key with no entry
      has never returned data. */
  type Cache = map<Option<string>, seq<Transaction>>

  /** The `data` the component reads for `user`: the entry under the user's
      key, absent (so the list falls back to `[]`) when there is none. */
  function DataFor(cache: Cache, user: Option<AuthStore.User>): (data: Option<seq<Transaction>>)
    ensures data.Some? <==> QueryKey(user) in cache
    ensures data.Some? ==> data.value == cache[QueryKey(user)]
  {
    var key := QueryKey(user);
    if key in cache then Some(cache[key]) else None
  }

  /** One run of the query while `user` is signed in: a disabled query does
      not run, an error keeps whatever the key held, and fetched rows become
      the entry under the user's key. */
  function RunQuery(cache: Cache, user: Option<AuthStore.User>, fetch: Fetch): (next: Cache)
    ensures !QueryEnabled(user) ==> next == cache
    ensures QueryEnabled(user) && fetch.FetchError? ==> next == cache
    ensures QueryEnabled(user) && fetch.FetchedRows? ==> next == cache[QueryKey(user) := fetch.rows]
  {
    if !QueryEnabled(user) then cache
    else match QueryFn(user, fetch)
      case Thrown => cache
      case Data(rows) => cache[QueryKey(user) := rows]
  }

  /** The query is enabled exactly for users whose key is live. */
  lemma EnabledIffLiveKey(user: Option<AuthStore.User>)
    ensures QueryEnabled(user) <==> LiveKey(QueryKey(user))
  {
  }

  /** A run touches only the entry under its own user's key. */
  lemma RunQueryTouchesOwnKey(cache: Cache, user: Option<AuthStore.User>, fetch: Fetch, key: Option<string>)
    requires key != QueryKey(user)
    ensures key in RunQuery(cache, user, fetch) <==> key in cache
    ensures key in cache ==> RunQuery(cache, user, fetch)[key] == cache[key]
  {
  }

  /** One query run: the user signed in at the time and the provider's answer. */
  datatype QueryRun = QueryRun(user: Option<AuthStore.User>, fetch: Fetch)

  /** The cache after a sequence of query runs, users changing between them. */
  function CacheAfter(cache: Cache, runs: seq<QueryRun>): (last: Cache)
    decreases |runs|
  {
    if |runs| == 0 then cache
    else CacheAfter(RunQuery(cache, runs[0].user, runs[0].fetch), runs[1..])
  }

  /** One rendered row. `sign` is the printed prefix, `magnitude` the number
      handed to the formatter, `divider` the bottom border. */
  datatype Row = Row(key: string, credit: bool, sign: char, magnitude: real, title: string, subtitle: string, divider: bool)

  datatype ListView = Spinner | EmptyState | Rows(rows: seq<Row>)

  function Abs(x: real): (r: real)
    ensures r >= 0.0 && (r == x || r == -x)
  {
    if x < 0.0 then -x else x
  }

  /** `recipient_name || description`: an absent or empty name falls back. */
  function Title(t: Transaction): (r: string)
    ensures t.recipientName.Some? && t.recipientName.value != "" ==> r == t.recipientName.value
    ensures t.recipientName.None? || t.recipientName.value == "" ==> r == t.description
  {
    match t.recipientName
    case Some(name) => if name != "" then name else t.description
    case None => t.description
  }

  /** The amount with the sign the row shows: credits as stored, every other
      type negated. */
  function DisplayAmount(t: Transaction): (amount: real)
    ensures amount == t.amount || amount == -t.amount
  {
    if t.txType == Credit then t.amount else -t.amount
  }

  /** The row for the transaction at `index` of a list of `count`. */
  function RenderRow(t: Transaction, index: nat, count: nat): (row: Row)
    requires index < count
    ensures row.credit <==> t.txType == Credit
    ensures row.sign == '+' <==> t.txType == Credit
    ensures row.sign == '-' <==> t.txType != Credit
    ensures row.magnitude == Abs(t.amount)
    ensures row.divider <==> index != count - 1
    ensures row.key == t.id && row.subtitle == t.description
    ensures row.title == Title(t)
  {
    var isCredit := t.txType == Credit;
    Row(t.id, isCredit, if isCredit then '+' else '-', Abs(DisplayAmount(t)), Title(t), t.description, index != count - 1)
  }

  /** The list body: the spinner while loading, the empty state for no rows,
      otherwise one row per transaction in the order received. */
  function RenderList(isLoading: bool, data: Option<seq<Transaction>>): (v: ListView)
    ensures v == Spinner <==> isLoading
    ensures v == EmptyState <==> !isLoading && data.GetOr([]) == []
    ensures v.Rows? ==> |v.rows| == |data.GetOr([])| > 0
    ensures v.Rows? ==> forall i :: 0 <= i < |v.rows| ==> v.rows[i] == RenderRow(data.GetOr([])[i], i, |v.rows|)
  {
    var transactions := data.GetOr([]);
    if isLoading then Spinner
    else if |transactions| == 0 then EmptyState
    else Rows(seq(|transactions|, i requires 0 <= i < |transactions| => RenderRow(transactions[i], i, |transactions|)))
  }

  /** The value a reader reconstructs from a row: the magnitude with its sign. */
  function ReadAmount(row: Row): (amount: real)
    ensures amount == row.magnitude || amount == -row.magnitude
  {
    if row.sign == '-' then -row.magnitude else row.magnitude
  }

  /** The printed sign and magnitude give back the displayed amount exactly
      when the stored amount is not negative: a negative credit would print
      as a positive "+" amount. */
  lemma ReadAmountIff(t: Transaction, index: nat, count: nat)
    requires index < count
    ensures ReadAmount(RenderRow(t, index, count)) == DisplayAmount(t) <==> t.amount >= 0.0
  {
  }

  /** Whatever users come and go, no entry is ever stored under a key the
      query cannot be enabled for. */
  lemma {:induction false} OnlyLiveKeysFilled(cache: Cache, runs: seq<QueryRun>)
    requires forall k :: k in cache ==> LiveKey(k)
    ensures forall k :: k in CacheAfter(cache, runs) ==> LiveKey(k)
    decreases |runs|
  {
    if |runs| > 0 {
      EnabledIffLiveKey(runs[0].user);
      OnlyLiveKeysFilled(RunQuery(cache, runs[0].user, runs[0].fetch), runs[1..]);
    }
  }

  /** Without a user id the list reads an entry that was never filled, so
      once loading is over it shows its empty state, even after another
      user's rows were fetched and that user signed out. */
  lemma NoUserMeansEmptyList(runs: seq<QueryRun>, user: Option<AuthStore.User>)
    requires !QueryEnabled(user)
    ensures DataFor(CacheAfter(map[], runs), user) == None
    ensures RenderList(false, DataFor(CacheAfter(map[], runs), user)) == EmptyState
  {
    OnlyLiveKeysFilled(map[], runs);
    EnabledIffLiveKey(user);
  }

  /** Runs made while no user with an id is signed in leave the cache as it was. */
  lemma {:induction false} NoUserKeepsCache(cache: Cache, runs: seq<QueryRun>)
    requires forall i :: 0 <= i < |runs| ==> !QueryEnabled(runs[i].user)
    ensures CacheAfter(cache, runs) == cache
    decreases |runs|
  {
    if |runs| > 0 {
      NoUserKeepsCache(RunQuery(cache, runs[0].user, runs[0].fetch), runs[1..]);
    }
  }

  /** Exactly one row, the last, goes without a divider. */
  lemma OnlyLastRowUndivided(isLoading: bool, data: Option<seq<Transaction>>)
    requires RenderList(isLoading, data).Rows?
    ensures var rows := RenderList(isLoading, data).rows;
      !rows[|rows| - 1].divider && forall i :: 0 <= i < |rows| - 1 ==> rows[i].divider
  {
  }
}
