/**
 * The two retail sub-agents of banking_chatbot/app/agents/retail_sub_agents.py.
 * The balance agent reads the caller's balance from the accounts table. The
 * payment agent reads the payment details from the user's turns, checks the
 * balance, debits it, and appends a row to the ledger under a fresh transaction id.
 *
 * The accounts and ledger files are values (`None` when the file does not exist),
 * amounts are whole numbers, and the clock reading and the conversion of the
 * amount text to a number are parameters.
 */
module RetailSubAgents {
  import opened Wrappers
  import opened PyStrings
  import opened Messages

  const UserTopic: string := "User"

  /** One row of the accounts table: the `username` and `balance` columns, and any others. */
  datatype AccountRow = AccountRow(username: string, balance: int, extra: map<string, string>)

  /** One row of the ledger, in the column order the ledger is written with. */
  datatype LedgerRow = LedgerRow(sender: string, receiver: string, transactionId: string, timeStamp: string)

  /** `str(x)` of a float holding a whole number `m` with |m| below 10^16 (Python writes larger ones as `1e+16`). */
  function MoneyText(m: int): string {
    IntText(m) + ".0"
  }

  /** The username comparison of both agents: both sides stripped and lower-cased. */
  predicate SameUser(a: string, b: string) {
    UserKey(a) == UserKey(b)
  }

  function UserKey(s: string): string {
    Lower(Strip(s))
  }

  /* ---------------------------------------------------------------- balance */

  /** The position of the first row of this user. */
  function FirstRow(rows: seq<AccountRow>, user: string): (r: Option<nat>)
    ensures r.Some? ==> (r.value < |rows| && SameUser(rows[r.value].username, user)
                         && forall k :: 0 <= k < r.value ==> !SameUser(rows[k].username, user))
    ensures r.None? ==> forall k :: 0 <= k < |rows| ==> !SameUser(rows[k].username, user)
  {
    if rows == [] then None
    else if SameUser(rows[0].username, user) then Some(0)
    else
      match FirstRow(rows[1..], user)
      case None => None
      case Some(k) => Some(k + 1)
  }

  /** `get_balance`: the balance of the first row of this user, or 0 when there is none or no file. */
  function BalanceOf(accounts: Option<seq<AccountRow>>, user: string): (r: int)
    ensures accounts.None? ==> r == 0
  {
    match accounts
    case None => 0
    case Some(rows) =>
      match FirstRow(rows, user)
      case None => 0
      case Some(j) => rows[j].balance
  }

  lemma {:induction false} FirstRowIs(rows: seq<AccountRow>, user: string, j: nat)
    requires j < |rows| && SameUser(rows[j].username, user)
    requires forall k :: 0 <= k < j ==> !SameUser(rows[k].username, user)
    ensures FirstRow(rows, user) == Some(j)
  {
    if j > 0 {
      FirstRowIs(rows[1..], user, j - 1);
    }
  }

  /** `get_balance`: scan the rows and stop at the first one of this user. */
  method GetBalance(accounts: Option<seq<AccountRow>>, user: string) returns (r: int)
    ensures r == BalanceOf(accounts, user)
  {
    if accounts.None? {
      return 0;
    }
    var rows := accounts.value;
    var i := 0;
    while i < |rows|
      invariant 0 <= i <= |rows|
      invariant forall k :: 0 <= k < i ==> !SameUser(rows[k].username, user)
    {
      if Lower(Strip(rows[i].username)) == Lower(Strip(user)) {
        FirstRowIs(rows, user, i);
        return rows[i].balance;
      }
      i := i + 1;
    }
    return 0;
  }

  function BalanceText(balance: int): string {
    "Your current balance is $" + MoneyText(balance) + ". Anything else I can help with?"
  }

  /** The answer to the user of this session, with the agent's own type as the reply-to. */
  function Reply(agentType: string, task: UserTask, session: string, text: string): Envelope {
    Envelope(ToTopic(TopicId(UserTopic, session)),
             ResponseMsg(AgentResponse(agentType, task.context + [AssistantMessage(TextContent(text), agentType)])))
  }

  /**
   * `CheckBalanceAgent.handle_task`: the session is the username, and the balance
   * goes back to the same session as one assistant turn.
   */
  method HandleCheckBalance(agentType: string, task: UserTask, session: string, accounts: Option<seq<AccountRow>>)
    returns (out: Envelope)
    ensures out == Reply(agentType, task, session, BalanceText(BalanceOf(accounts, session)))
  {
    var balance := GetBalance(accounts, session);
    out := Reply(agentType, task, session, BalanceText(balance));
  }

  /* -------------------------------------------------------- payment details */

  /** The three fields `parse_payment_details` looks for; `None` where nothing was found. */
  datatype PaymentDetails = PaymentDetails(receiver: Option<string>, ifsc: Option<string>, amount: Option<string>)

  /** The user turns, lower-cased, in order. */
  function UserLines(ctx: seq<LLMMessage>): (r: seq<string>)
    ensures |r| <= |ctx|
  {
    if ctx == [] then []
    else
      var last := ctx[|ctx| - 1];
      UserLines(ctx[..|ctx| - 1]) + (if last.UserMessage? then [Lower(last.content)] else [])
  }

  /** The token right after the first occurrence of `key`, if `key` occurs and is not the last token. */
  function After(tokens: seq<string>, key: string): (r: Option<string>)
    ensures r.Some? <==> exists i :: 0 <= i < |tokens| - 1 && tokens[i] == key && key !in tokens[..i]
    ensures r.Some? ==> exists i :: (0 <= i < |tokens| - 1 && tokens[i] == key && key !in tokens[..i]
                                     && r.value == tokens[i + 1])
  {
    if key in tokens then
      var i := IndexOf(tokens, key);
      assert forall j :: 0 <= j < |tokens| && tokens[j] == key && key !in tokens[..j] ==> j == i by {
        forall j | 0 <= j < |tokens| && tokens[j] == key && key !in tokens[..j]
          ensures j == i
        {
        }
      }
      if i + 1 < |tokens| then Some(tokens[i + 1]) else None
    else None
  }

  /** The amount after "pay", kept only when it is all digits. */
  function PayAmount(joined: string): (r: Option<string>)
    ensures r.Some? ==> IsDigits(r.value)
  {
    var t := After(Split(joined), "pay");
    if t.Some? && IsDigits(t.value) then t else None
  }

  /**
   * The fields read from the joined user text: for each keyword that occurs in it,
   * the token after the keyword once "=" is read as a space; "pay" is consulted
   * only when "amount" does not occur at all.
   */
  function DetailsOf(joined: string): (d: PaymentDetails)
    ensures !Contains(joined, "receiver") ==> d.receiver.None?
    ensures !Contains(joined, "ifsc") ==> d.ifsc.None?
    ensures Contains(joined, "amount") ==> d.amount == After(Split(ReplaceChar(joined, '=', ' ')), "amount")
    ensures !Contains(joined, "amount") ==> d.amount == PayAmount(joined)
  {
    var tokens := Split(ReplaceChar(joined, '=', ' '));
    PaymentDetails(
      if Contains(joined, "receiver") then After(tokens, "receiver") else None,
      if Contains(joined, "ifsc") then After(tokens, "ifsc") else None,
      if Contains(joined, "amount") then After(tokens, "amount") else PayAmount(joined))
  }

  /** `parse_payment_details`: collect the user turns, join them with newlines, read the fields. */
  method ParsePaymentDetails(ctx: seq<LLMMessage>) returns (d: PaymentDetails)
    ensures d == DetailsOf(Join("\n", UserLines(ctx)))
  {
    var lines: seq<string> := [];
    for i := 0 to |ctx|
      invariant lines == UserLines(ctx[..i])
    {
      assert ctx[..i + 1][..i] == ctx[..i];
      if ctx[i].UserMessage? {
        lines := lines + [Lower(ctx[i].content)];
      }
    }
    assert ctx[..|ctx|] == ctx;
    d := DetailsOf(Join("\n", lines));
  }

  /** Every value the parser finds is a whole token: non-empty and without whitespace. */
  lemma ParsedFieldsAreWords(joined: string)
    ensures var d := DetailsOf(joined);
      (d.receiver.Some? ==> IsWord(d.receiver.value))
      && (d.ifsc.Some? ==> IsWord(d.ifsc.value))
      && (d.amount.Some? ==> IsWord(d.amount.value))
  {
    var d := DetailsOf(joined);
    var tokens := Split(ReplaceChar(joined, '=', ' '));
    if d.amount.Some? && !Contains(joined, "amount") {
      var t := Split(joined);
      assert forall i :: 0 <= i < |t| ==> IsWord(t[i]);
    }
  }

  const FieldNames: seq<string> := ["receiver", "ifsc", "amount"]

  function FieldValue(d: PaymentDetails, f: string): Option<string> {
    if f == "receiver" then d.receiver else if f == "ifsc" then d.ifsc else d.amount
  }

  /** Python truthiness of an optional string: `None` and `""` are falsy. */
  predicate Falsy(v: Option<string>) {
    v.None? || v.value == ""
  }

  /** The names among `names` whose value is falsy, in order. */
  function MissingAmong(names: seq<string>, d: PaymentDetails): (r: seq<string>)
    ensures |r| <= |names|
    ensures forall f :: f in r <==> f in names && Falsy(FieldValue(d, f))
    ensures r == [] <==> forall i :: 0 <= i < |names| ==> !Falsy(FieldValue(d, names[i]))
  {
    if names == [] then []
    else
      var init := names[..|names| - 1];
      var last := names[|names| - 1];
      assert names == init + [last];
      MissingAmong(init, d) + (if Falsy(FieldValue(d, last)) then [last] else [])
  }

  /** `find_missing`: the falsy fields, in the order receiver, ifsc, amount. */
  method FindMissing(d: PaymentDetails) returns (missing: seq<string>)
    ensures missing == MissingAmong(FieldNames, d)
  {
    missing := [];
    for i := 0 to |FieldNames|
      invariant missing == MissingAmong(FieldNames[..i], d)
    {
      assert FieldNames[..i + 1][..i] == FieldNames[..i];
      var f := FieldNames[i];
      if FieldValue(d, f).None? || FieldValue(d, f).value == "" {
        missing := missing + [f];
      }
    }
    assert FieldNames[..|FieldNames|] == FieldNames;
  }

  /** Nothing is missing exactly when all three fields hold non-empty text. */
  lemma NothingMissingIffComplete(d: PaymentDetails)
    ensures MissingAmong(FieldNames, d) == [] <==> Complete(d)
  {
    assert FieldValue(d, FieldNames[0]) == d.receiver;
    assert FieldValue(d, FieldNames[1]) == d.ifsc;
    assert FieldValue(d, FieldNames[2]) == d.amount;
  }

  /** For parsed details a field is reported missing exactly when no value was found for it. */
  lemma ParsedMissingMeansAbsent(joined: string, f: string)
    requires f in FieldNames
    ensures f in MissingAmong(FieldNames, DetailsOf(joined)) <==> FieldValue(DetailsOf(joined), f).None?
  {
    ParsedFieldsAreWords(joined);
  }

  /* ---------------------------------------------------------------- updates */

  function SetRow(row: AccountRow, user: string, newBalance: int): AccountRow {
    if SameUser(row.username, user) then row.(balance := newBalance) else row
  }

  /** The accounts table after `update_balance`: every row of this user holds the new balance. */
  function SetBalance(accounts: Option<seq<AccountRow>>, user: string, newBalance: int): (r: Option<seq<AccountRow>>)
    ensures r.Some? <==> accounts.Some?
    ensures r.Some? ==> |r.value| == |accounts.value|
  {
    match accounts
    case None => None
    case Some(rows) => Some(seq(|rows|, i requires 0 <= i < |rows| => SetRow(rows[i], user, newBalance)))
  }

  /** `update_balance`: rewrite the table only when some row of this user was updated. */
  method UpdateBalance(accounts: Option<seq<AccountRow>>, user: string, newBalance: int)
    returns (after: Option<seq<AccountRow>>)
    ensures after == SetBalance(accounts, user, newBalance)
    ensures (accounts.None? || forall k :: 0 <= k < |accounts.value| ==> !SameUser(accounts.value[k].username, user))
            ==> after == accounts
  {
    if accounts.None? {
      return accounts;
    }
    var rows := accounts.value;
    var out: seq<AccountRow> := [];
    var updated := false;
    for i := 0 to |rows|
      invariant |out| == i
      invariant forall k :: 0 <= k < i ==> out[k] == SetRow(rows[k], user, newBalance)
      invariant updated <==> exists k :: 0 <= k < i && SameUser(rows[k].username, user)
    {
      var row := rows[i];
      if Lower(Strip(row.username)) == Lower(Strip(user)) {
        row := row.(balance := newBalance);
        updated := true;
      }
      out := out + [row];
    }
    assert out == SetBalance(accounts, user, newBalance).value;
    if updated {
      after := Some(out);
    } else {
      assert out == rows;
      after := accounts;
    }
  }

  /** The update touches only the balance column, and only on rows of this user. */
  lemma SetBalanceTouchesOnlyUser(rows: seq<AccountRow>, user: string, newBalance: int, i: nat)
    requires i < |rows|
    ensures var r := SetBalance(Some(rows), user, newBalance).value[i];
      r.username == rows[i].username && r.extra == rows[i].extra
      && (SameUser(rows[i].username, user) ==> r.balance == newBalance)
      && (!SameUser(rows[i].username, user) ==> r == rows[i])
  {
  }

  /** After the update the user reads back the new balance, when the user has a row. */
  lemma BalanceAfterUpdate(rows: seq<AccountRow>, user: string, newBalance: int)
    requires exists k :: 0 <= k < |rows| && SameUser(rows[k].username, user)
    ensures BalanceOf(SetBalance(Some(rows), user, newBalance), user) == newBalance
  {
    var after := SetBalance(Some(rows), user, newBalance).value;
    var j := FirstRow(rows, user).value;
    assert forall k :: 0 <= k < j ==> after[k] == rows[k];
    FirstRowIs(after, user, j);
  }

  /** Another user's balance is not affected by the update. */
  lemma UpdateIsolatesUsers(accounts: Option<seq<AccountRow>>, user: string, other: string, newBalance: int)
    requires !SameUser(user, other)
    ensures BalanceOf(SetBalance(accounts, user, newBalance), other) == BalanceOf(accounts, other)
  {
    if accounts.Some? {
      var rows := accounts.value;
      var after := SetBalance(accounts, user, newBalance).value;
      assert forall k :: 0 <= k < |rows| ==> after[k].username == rows[k].username;
      assert forall k :: 0 <= k < |rows| && SameUser(rows[k].username, other) ==> after[k] == rows[k];
      match FirstRow(rows, other)
      case Some(j) =>
        FirstRowIs(after, other, j);
      case None =>
        assert FirstRow(after, other).None?;
    }
  }

  /* ----------------------------------------------------- transaction ids */

  /** `int(s)` on ASCII text: an optional sign, then at least one digit. */
  function IntValue(s: string): Option<int> {
    if IsDigits(s) then Some(DigitsValue(s))
    else if s != [] && (s[0] == '+' || s[0] == '-') && IsDigits(s[1..]) then
      var v: int := DigitsValue(s[1..]);
      Some(if s[0] == '-' then -v else v)
    else None
  }

  /** The number a ledger id contributes: `int()` of what follows a leading "tx" in any case. */
  function TxNumber(id: string): Option<int> {
    if StartsWith(Lower(id), "tx") then IntValue(id[2..]) else None
  }

  /**
   * An id counts only when it starts with "tx" in any case and the rest is digits
   * with an optional sign; its number is their signed value, and every such id counts.
   */
  lemma TxNumberReadsSuffix(id: string)
    ensures var r := TxNumber(id);
      (r.Some? ==> |id| > 2 && (id[0] == 't' || id[0] == 'T') && (id[1] == 'x' || id[1] == 'X'))
      && (r.Some? && IsDigits(id[2..]) ==> r.value == DigitsValue(id[2..]))
      && (r.Some? && !IsDigits(id[2..]) ==>
            (id[2] == '+' || id[2] == '-') && IsDigits(id[3..])
            && r.value == (if id[2] == '-' then -(DigitsValue(id[3..]) as int) else DigitsValue(id[3..])))
      && (r.Some? && r.value < 0 ==> id[2] == '-')
      && (|id| > 2 && (id[0] == 't' || id[0] == 'T') && (id[1] == 'x' || id[1] == 'X') && IsDigits(id[2..]) ==>
            r == Some(DigitsValue(id[2..])))
  {
    assert |id| >= 2 && (id[0] == 't' || id[0] == 'T') && (id[1] == 'x' || id[1] == 'X') ==> Lower(id)[..2] == "tx";
    if StartsWith(Lower(id), "tx") {
      assert Lower(id)[..2][0] == 't' && Lower(id)[..2][1] == 'x';
      assert |id| > 2 ==> id[2..][1..] == id[3..];
    }
  }

  /** A sign after "TX" is read as `int()` reads it; a negative number never raises the maximum. */
  lemma {:induction false} SignedSuffixes()
    ensures TxNumber("TX+7") == Some(7) && TxNumber("tx-3") == Some(-3) && TxNumber("TX+") == None
    ensures NextTxNumber(Some([LedgerRow("a", "b", "TX+7", "t")])) == 8
    ensures NextTxNumber(Some([LedgerRow("a", "b", "TX-3", "t")])) == 1
  {
    assert "TX+7"[2..] == "+7" && "+7"[1..] == "7";
    assert "tx-3"[2..] == "-3" && "-3"[1..] == "3";
    assert "TX+"[2..] == "+" && "+"[1..] == [];
    assert DigitsValue("7") == 7 by { assert "7"[..0] == []; }
    assert DigitsValue("3") == 3 by { assert "3"[..0] == []; }
    var rows := [LedgerRow("a", "b", "TX+7", "t")];
    assert rows[..0] == [];
    var rows' := [LedgerRow("a", "b", "TX-3", "t")];
    assert rows'[..0] == [];
  }

  /** The largest counted number in the ledger, 0 when none counts. */
  function MaxTxNumber(rows: seq<LedgerRow>): nat {
    if rows == [] then 0
    else
      var prev := MaxTxNumber(rows[..|rows| - 1]);
      match TxNumber(rows[|rows| - 1].transactionId)
      case Some(n) => if n > prev then n else prev
      case None => prev
  }

  /** The running maximum bounds every counted number and is 0 or one of them. */
  lemma {:induction false} MaxTxNumberIsMax(rows: seq<LedgerRow>)
    ensures var r := MaxTxNumber(rows);
      (forall k :: 0 <= k < |rows| && TxNumber(rows[k].transactionId).Some? ==> TxNumber(rows[k].transactionId).value <= r)
      && (r == 0 || exists k :: 0 <= k < |rows| && TxNumber(rows[k].transactionId) == Some(r))
  {
    if rows != [] {
      var init := rows[..|rows| - 1];
      MaxTxNumberIsMax(init);
      assert forall k :: 0 <= k < |init| ==> init[k] == rows[k];
      var r := MaxTxNumber(rows);
      if r != 0 && r != MaxTxNumber(init) {
        assert TxNumber(rows[|rows| - 1].transactionId) == Some(r);
      }
    }
  }

  /** `f"TX{n:03d}"` */
  function FormatTxId(n: nat): string {
    "TX" + PaddedDecimal(n, 3)
  }

  /** The id `get_next_txid` hands out: "TX001" without a ledger, otherwise one past the largest counted. */
  function NextTxNumber(ledger: Option<seq<LedgerRow>>): (r: nat)
    ensures r >= 1
  {
    match ledger
    case None => 1
    case Some(rows) => MaxTxNumber(rows) + 1
  }

  /** `get_next_txid`, keeping its running maximum `max_num`. */
  method NextTxId(ledger: Option<seq<LedgerRow>>) returns (id: string)
    ensures id == FormatTxId(NextTxNumber(ledger))
  {
    if ledger.None? {
      assert PaddedDecimal(1, 3) == "001";
      return "TX001";
    }
    var rows := ledger.value;
    var maxNum: nat := 0;
    for i := 0 to |rows|
      invariant maxNum == MaxTxNumber(rows[..i])
    {
      assert rows[..i + 1][..i] == rows[..i];
      var txid := rows[i].transactionId;
      var parsed := TxNumber(txid);
      if parsed.Some? {
        var numVal := parsed.value;
        if numVal > maxNum {
          maxNum := numVal;
        }
      }
    }
    assert rows[..|rows|] == rows;
    id := FormatTxId(maxNum + 1);
  }

  /** A formatted id reads back as its number. */
  lemma TxIdRoundTrip(n: nat)
    ensures TxNumber(FormatTxId(n)) == Some(n)
  {
    var id := FormatTxId(n);
    assert id[2..] == PaddedDecimal(n, 3);
    assert Lower(id)[..2] == "tx";
    PaddedDecimalValue(n, 3);
  }

  /** The new id is different from every id already in the ledger. */
  lemma NextTxIdFresh(ledger: Option<seq<LedgerRow>>)
    ensures ledger.Some? ==>
              forall k :: 0 <= k < |ledger.value| ==> ledger.value[k].transactionId != FormatTxId(NextTxNumber(ledger))
  {
    if ledger.Some? {
      var rows := ledger.value;
      var n := NextTxNumber(ledger);
      TxIdRoundTrip(n);
      MaxTxNumberIsMax(rows);
      forall k | 0 <= k < |rows|
        ensures rows[k].transactionId != FormatTxId(n)
      {
      }
    }
  }

  /** `write_ledger`: the ledger with one row appended; a missing ledger starts with that row. */
  function AppendLedger(ledger: Option<seq<LedgerRow>>, row: LedgerRow): (r: Option<seq<LedgerRow>>)
    ensures r.Some? && |r.value| >= 1 && r.value[|r.value| - 1] == row
    ensures ledger.Some? ==> |r.value| == |ledger.value| + 1 && r.value[..|ledger.value|] == ledger.value
    ensures ledger.None? ==> r.value == [row]
  {
    match ledger
    case None => Some([row])
    case Some(rows) => Some(rows + [row])
  }

  /** Ids keep being fresh: after an entry is written, the next id is larger again. */
  lemma NextTxNumberGrows(ledger: Option<seq<LedgerRow>>, sender: string, receiver: string, now: string)
    ensures var row := LedgerRow(sender, receiver, FormatTxId(NextTxNumber(ledger)), now);
      NextTxNumber(AppendLedger(ledger, row)) == NextTxNumber(ledger) + 1
  {
    var n := NextTxNumber(ledger);
    TxIdRoundTrip(n);
    var after := AppendLedger(ledger, LedgerRow(sender, receiver, FormatTxId(n), now)).value;
    assert TxNumber(after[|after| - 1].transactionId) == Some(n);
    if ledger.Some? {
      assert after[..|after| - 1] == ledger.value;
    } else {
      assert after[..0] == [];
    }
    assert MaxTxNumber(after) == n;
  }

  /* --------------------------------------------------------------- payment */

  function MissingPrompt(missing: seq<string>): string {
    "Please provide missing fields: " + Join(", ", missing)
  }

  function FailText(balance: int, amount: int): string {
    "Payment failed! You only have $" + MoneyText(balance) + ", but tried $" + MoneyText(amount) + "."
  }

  function SuccessText(txId: string, newBalance: int): string {
    "Payment success! TxID=" + txId + ". New balance=$" + MoneyText(newBalance) + "."
  }

  /** `float(details["amount"])` raised `ValueError`: nothing is published and nothing changes. */
  datatype PaymentError = BadAmount(text: string)

  /** What one payment request leaves behind: the publish, or the error raised, and both tables. */
  datatype PaymentOutcome = PaymentOutcome(
    out: Result<Envelope, PaymentError>,
    accounts: Option<seq<AccountRow>>,
    ledger: Option<seq<LedgerRow>>)

  /** All three fields hold non-empty text: `find_missing` reports nothing. */
  predicate Complete(d: PaymentDetails) {
    !Falsy(d.receiver) && !Falsy(d.ifsc) && !Falsy(d.amount)
  }

  /** Which of the handler's four ways out a request takes. */
  datatype Decision =
    | AskForMissing(missing: seq<string>)
    | AmountUnreadable(text: string)
    | Insufficient(balance: int, amount: int)
    | Pay(receiver: string, balance: int, amount: int)

  /** The checks of `MakePaymentAgent.handle_task`, in the order `handle_task` makes them. */
  function Decide(d: PaymentDetails, accounts: Option<seq<AccountRow>>, session: string,
                  parseAmount: string -> Option<int>): (r: Decision)
    ensures r.AskForMissing? <==> !Complete(d)
    ensures r.AskForMissing? ==> r.missing != [] && r.missing == MissingAmong(FieldNames, d)
    ensures r.AmountUnreadable? <==> Complete(d) && parseAmount(d.amount.value).None?
    ensures r.Insufficient? ==> r.amount > r.balance
    ensures r.Insufficient? ==> (r.balance == BalanceOf(accounts, session)
                                 && Some(r.amount) == parseAmount(d.amount.value) && Complete(d))
    ensures r.Pay? <==> (Complete(d) && parseAmount(d.amount.value).Some?
                         && parseAmount(d.amount.value).value <= BalanceOf(accounts, session))
    ensures r.Pay? ==> (Some(r.receiver) == d.receiver && r.balance == BalanceOf(accounts, session)
                        && Some(r.amount) == parseAmount(d.amount.value) && r.amount <= r.balance)
  {
    var missing := MissingAmong(FieldNames, d);
    NothingMissingIffComplete(d);
    if missing != [] then AskForMissing(missing)
    else
      match parseAmount(d.amount.value)
      case None => AmountUnreadable(d.amount.value)
      case Some(amount) =>
        var balance := BalanceOf(accounts, session);
        if amount > balance then Insufficient(balance, amount) else Pay(d.receiver.value, balance, amount)
  }

  /** What a decision publishes or raises, and both tables afterwards. */
  function Carry(decision: Decision, agentType: string, task: UserTask, session: string,
                 accounts: Option<seq<AccountRow>>, ledger: Option<seq<LedgerRow>>, now: string): (r: PaymentOutcome)
    ensures !decision.Pay? ==> r.accounts == accounts && r.ledger == ledger
    ensures decision.Pay? ==> r.accounts == SetBalance(accounts, session, decision.balance - decision.amount)
    ensures r.out.Failure? <==> decision.AmountUnreadable?
  {
    match decision
    case AskForMissing(missing) =>
      PaymentOutcome(Success(Reply(agentType, task, session, MissingPrompt(missing))), accounts, ledger)
    case AmountUnreadable(text) => PaymentOutcome(Failure(BadAmount(text)), accounts, ledger)
    case Insufficient(balance, amount) =>
      PaymentOutcome(Success(Reply(agentType, task, session, FailText(balance, amount))), accounts, ledger)
    case Pay(receiver, balance, amount) =>
      var txId := FormatTxId(NextTxNumber(ledger));
      PaymentOutcome(Success(Reply(agentType, task, session, SuccessText(txId, balance - amount))),
                     SetBalance(accounts, session, balance - amount),
                     AppendLedger(ledger, LedgerRow(session, receiver, txId, now)))
  }

  /** `MakePaymentAgent.handle_task`, calling the helpers in the order `handle_task` calls them. */
  method HandleMakePayment(agentType: string, task: UserTask, session: string,
                           accounts: Option<seq<AccountRow>>, ledger: Option<seq<LedgerRow>>,
                           parseAmount: string -> Option<int>, now: string)
    returns (out: Result<Envelope, PaymentError>, accountsAfter: Option<seq<AccountRow>>,
             ledgerAfter: Option<seq<LedgerRow>>)
    ensures var d := DetailsOf(Join("\n", UserLines(task.context)));
      PaymentOutcome(out, accountsAfter, ledgerAfter)
      == Carry(Decide(d, accounts, session, parseAmount), agentType, task, session, accounts, ledger, now)
  {
    accountsAfter, ledgerAfter := accounts, ledger;
    var details := ParsePaymentDetails(task.context);
    var missing := FindMissing(details);
    NothingMissingIffComplete(details);
    if missing != [] {
      out := Success(Reply(agentType, task, session, MissingPrompt(missing)));
      return;
    }
    var parsed := parseAmount(details.amount.value);
    if parsed.None? {
      out := Failure(BadAmount(details.amount.value));
      return;
    }
    var amount := parsed.value;
    var currentBalance := GetBalance(accounts, session);
    if amount > currentBalance {
      out := Success(Reply(agentType, task, session, FailText(currentBalance, amount)));
      return;
    }
    out, accountsAfter, ledgerAfter := Settle(agentType, task, session, details.receiver.value,
                                              currentBalance, amount, accounts, ledger, now);
  }

  /** The debit, the new id and the ledger entry of a payment that passed every check. */
  method Settle(agentType: string, task: UserTask, session: string, receiver: string, currentBalance: int,
                amount: int, accounts: Option<seq<AccountRow>>, ledger: Option<seq<LedgerRow>>, now: string)
    returns (out: Result<Envelope, PaymentError>, accountsAfter: Option<seq<AccountRow>>,
             ledgerAfter: Option<seq<LedgerRow>>)
    ensures PaymentOutcome(out, accountsAfter, ledgerAfter)
            == Carry(Pay(receiver, currentBalance, amount), agentType, task, session, accounts, ledger, now)
  {
    var newBalance := currentBalance - amount;
    accountsAfter := UpdateBalance(accounts, session, newBalance);
    var newTxId := NextTxId(ledger);
    ledgerAfter := AppendLedger(ledger, LedgerRow(session, receiver, newTxId, now));
    out := Success(Reply(agentType, task, session, SuccessText(newTxId, newBalance)));
  }

  /**
   * A payment that passes every check appends exactly one ledger row, from the
   * session user to the parsed receiver, under an id no earlier row carries.
   */
  lemma PaymentIsLedgered(receiver: string, balance: int, amount: int, agentType: string, task: UserTask,
                          session: string, accounts: Option<seq<AccountRow>>, ledger: Option<seq<LedgerRow>>,
                          now: string)
    ensures var r := Carry(Pay(receiver, balance, amount), agentType, task, session, accounts, ledger, now).ledger;
      r.Some? && |r.value| >= 1
      && r.value[|r.value| - 1].sender == session && r.value[|r.value| - 1].receiver == receiver
      && (ledger.Some? ==> (|r.value| == |ledger.value| + 1 && r.value[..|ledger.value|] == ledger.value
            && forall k :: 0 <= k < |ledger.value| ==> ledger.value[k].transactionId != r.value[|r.value| - 1].transactionId))
  {
    NextTxIdFresh(ledger);
  }

  /**
   * A payment that passes every check rewrites the sender's rows with the balance
   * less the amount: a sender with a row reads that back, and every other user's
   * balance reads as before.
   */
  lemma {:induction false} PaymentDebits(receiver: string, balance: int, amount: int, agentType: string, task: UserTask,
                      session: string, accounts: Option<seq<AccountRow>>, ledger: Option<seq<LedgerRow>>, now: string)
    ensures var after := Carry(Pay(receiver, balance, amount), agentType, task, session, accounts, ledger, now).accounts;
      after == SetBalance(accounts, session, balance - amount)
      && (HasRow(accounts, session) ==> BalanceOf(after, session) == balance - amount)
      && forall other :: !SameUser(session, other) ==> BalanceOf(after, other) == BalanceOf(accounts, other)
  {
    var after := Carry(Pay(receiver, balance, amount), agentType, task, session, accounts, ledger, now).accounts;
    SetBalanceReadBack(accounts, session, balance - amount, after);
  }

  /** Some row of the table belongs to the user. */
  predicate HasRow(accounts: Option<seq<AccountRow>>, user: string) {
    accounts.Some? && exists k :: 0 <= k < |accounts.value| && SameUser(accounts.value[k].username, user)
  }

  /** `BalanceAfterUpdate` and `UpdateIsolatesUsers` together, for every other user at once. */
  lemma {:induction false} SetBalanceReadBack(accounts: Option<seq<AccountRow>>, user: string, newBalance: int,
                                              after: Option<seq<AccountRow>>)
    requires after == SetBalance(accounts, user, newBalance)
    ensures HasRow(accounts, user) ==> BalanceOf(after, user) == newBalance
    ensures forall other :: !SameUser(user, other) ==> BalanceOf(after, other) == BalanceOf(accounts, other)
  {
    if HasRow(accounts, user) {
      BalanceAfterUpdate(accounts.value, user, newBalance);
    }
    forall other | !SameUser(user, other)
      ensures BalanceOf(after, other) == BalanceOf(accounts, other)
    {
      UpdateIsolatesUsers(accounts, user, other, newBalance);
    }
  }

  /**
   * With a balance that is not negative, a negative amount passes the balance
   * check, so the "debit" sets the balance above what it was.
   */
  lemma NegativeAmountPasses(d: PaymentDetails, accounts: Option<seq<AccountRow>>, session: string,
                             parseAmount: string -> Option<int>, amount: int)
    requires Complete(d) && parseAmount(d.amount.value) == Some(amount)
    requires amount < 0 <= BalanceOf(accounts, session)
    ensures var decision := Decide(d, accounts, session, parseAmount);
      decision.Pay? && decision.balance - decision.amount > decision.balance
  {
  }

  /** A sender without an account row has balance 0, yet a zero payment passes and is written to the ledger. */
  lemma {:induction false} NoAccountZeroPaymentIsLedgered(d: PaymentDetails, rows: seq<AccountRow>, session: string,
                                       parseAmount: string -> Option<int>, agentType: string, task: UserTask,
                                       ledger: Option<seq<LedgerRow>>, now: string)
    requires Complete(d) && parseAmount(d.amount.value) == Some(0)
    requires forall k :: 0 <= k < |rows| ==> !SameUser(rows[k].username, session)
    ensures var decision := Decide(d, Some(rows), session, parseAmount);
      var r := Carry(decision, agentType, task, session, Some(rows), ledger, now);
      decision.Pay? && r.accounts == Some(rows) && r.ledger != ledger
  {
    var after := SetBalance(Some(rows), session, 0).value;
    assert after == rows;
  }
}
