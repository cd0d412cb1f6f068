/**
 * Credential checking: banking_chatbot/app/tools/credential_utils.py reads a
 * username/password table, and banking_chatbot/app/agents/authentication_agent.py
 * announces a login to the user topic when a submitted pair matches it.
 *
 * The credentials file is a value: None when it does not exist, else its rows.
 */
module Authentication {
  import opened Wrappers
  import opened Messages

  /** One row of the credentials file, by its `username` and `password` columns. */
  datatype CredentialRow = CredentialRow(username: string, password: string)

  /** The dictionary built from the rows, in file order: a later row of a name overwrites an earlier one. */
  function CredentialMap(rows: seq<CredentialRow>): map<string, string> {
    if rows == [] then map[]
    else
      var last := rows[|rows| - 1];
      CredentialMap(rows[..|rows| - 1])[last.username := last.password]
  }

  /** `load_credentials_from_csv`: `open` raises when the file does not exist. */
  method LoadCredentials(file: Option<seq<CredentialRow>>, path: string) returns (r: Result<map<string, string>, string>)
    ensures file.None? ==> r == Failure("[Errno 2] No such file or directory: '" + path + "'")
    ensures file.Some? ==> r == Success(CredentialMap(file.value))
  {
    if file.None? {
      return Failure("[Errno 2] No such file or directory: '" + path + "'");
    }
    var rows := file.value;
    var credentials: map<string, string> := map[];
    for i := 0 to |rows|
      invariant credentials == CredentialMap(rows[..i])
    {
      assert rows[..i + 1][..i] == rows[..i];
      credentials := credentials[rows[i].username := rows[i].password];
    }
    assert rows[..|rows|] == rows;
    return Success(credentials);
  }

  /** The dictionary has exactly one key per distinct username in the file. */
  lemma {:induction false} CredentialKeys(rows: seq<CredentialRow>)
    ensures forall u :: u in CredentialMap(rows) <==> exists i :: 0 <= i < |rows| && rows[i].username == u
  {
    if rows != [] {
      var init := rows[..|rows| - 1];
      CredentialKeys(init);
      assert forall i :: 0 <= i < |init| ==> init[i] == rows[i];
    }
  }

  /** The row that is last for its username is the one whose password the dictionary keeps. */
  lemma {:induction false} CredentialLastWins(rows: seq<CredentialRow>, i: nat)
    requires i < |rows|
    requires forall j :: i < j < |rows| ==> rows[j].username != rows[i].username
    ensures rows[i].username in CredentialMap(rows)
    ensures CredentialMap(rows)[rows[i].username] == rows[i].password
  {
    if i < |rows| - 1 {
      var init := rows[..|rows| - 1];
      assert init[i] == rows[i];
      CredentialLastWins(init, i);
    }
  }

  /** The agent's state, fixed at construction. */
  datatype AuthenticationAgent = AuthenticationAgent(validUsers: map<string, string>, userTopic: string)

  /** `handle_credentials`: a login to (user topic, username) on a match, nothing otherwise. */
  function HandleCredentials(agent: AuthenticationAgent, c: UserCredentials): (r: Option<Envelope>)
    ensures r.Some? <==> c.username in agent.validUsers && agent.validUsers[c.username] == c.password
    ensures r.Some? ==> r.value.dest == ToTopic(TopicId(agent.userTopic, c.username))
                        && r.value.payload == LoginMsg(UserLogin(c.username))
  {
    if c.username in agent.validUsers && agent.validUsers[c.username] == c.password then
      Some(Envelope(ToTopic(TopicId(agent.userTopic, c.username)), LoginMsg(UserLogin(c.username))))
    else None
  }

  /**
   * Against a file, a pair is accepted exactly when it is the last row of that
   * username: an earlier password of a repeated name no longer logs in.
   */
  lemma AcceptedIffLastRow(rows: seq<CredentialRow>, userTopic: string, c: UserCredentials)
    ensures HandleCredentials(AuthenticationAgent(CredentialMap(rows), userTopic), c).Some?
            <==> exists i :: 0 <= i < |rows| && rows[i] == CredentialRow(c.username, c.password)
                             && forall j :: i < j < |rows| ==> rows[j].username != c.username
  {
    var m := CredentialMap(rows);
    CredentialKeys(rows);
    if c.username in m {
      var k :| 0 <= k < |rows| && rows[k].username == c.username;
      var i := LastOf(rows, c.username, k);
      CredentialLastWins(rows, i);
      if m[c.username] != c.password {
        forall i' | 0 <= i' < |rows| && rows[i'] == CredentialRow(c.username, c.password)
          ensures exists j :: i' < j < |rows| && rows[j].username == c.username
        {
          if i' != i {
            assert i' < i;
          }
        }
      }
    }
  }

  /** The position of the last row carrying `name`, at or after `k`. */
  lemma {:induction false} LastOf(rows: seq<CredentialRow>, name: string, k: nat) returns (i: nat)
    requires k < |rows| && rows[k].username == name
    ensures k <= i < |rows| && rows[i].username == name
    ensures forall j :: i < j < |rows| ==> rows[j].username != name
    decreases |rows| - k
  {
    if forall j :: k < j < |rows| ==> rows[j].username != name {
      return k;
    }
    var j :| k < j < |rows| && rows[j].username == name;
    i := LastOf(rows, name, j);
  }

  /** A repeated username: only the later password is accepted. */
  lemma EarlierPasswordRejected()
    ensures var rows := [CredentialRow("ana", "old"), CredentialRow("ana", "new")];
      var agent := AuthenticationAgent(CredentialMap(rows), "User");
      HandleCredentials(agent, UserCredentials("ana", "old")).None?
      && HandleCredentials(agent, UserCredentials("ana", "new")).Some?
  {
    var rows := [CredentialRow("ana", "old"), CredentialRow("ana", "new")];
    assert rows[..1][..0] == [];
    assert rows[..1] == [CredentialRow("ana", "old")];
  }
}
