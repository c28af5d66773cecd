/** The pure part of the bot: the verdict table, the token gate and the
    status formatter. */
module Homework {
  import opened PyValue

  /** The fixed table from review status to the text sent to the user. */
  const Verdicts: map<string, string> := map[
    "approved" := "Работа проверена: ревьюеру всё понравилось. Ура!",
    "reviewing" := "Работа взята на проверку ревьюером.",
    "rejected" := "Работа проверена: у ревьюера есть замечания."
  ]

  /** What the formatter returns instead of raising on a bad record. */
  const WrongStatus: string := "Неправильный статус ДЗ"

  const TokensMessage: string := "problem with tokens"

  /** The sentence announcing a new verdict for the homework `name`. */
  function StatusMessage(name: string, verdict: string): string {
    "Изменился статус проверки работы \"" + name + "\". " + verdict
  }

  /** A status the verdict table knows. */
  predicate KnownStatus(status: Json) {
    status.JStr? && status.s in Verdicts
  }

  // ---------------------------------------------------------------------------
  // Token gate

  /** Python's truth value of an environment lookup: `None` and `''` are false. */
  predicate Truthy(token: Option<string>) {
    token.Some? && token.value != ""
  }

  /** A token that is absent from the environment or set to the empty string. */
  predicate Unset(token: Option<string>) {
    token == None || token == Some("")
  }

  /** `check_tokens`: raises unless all three tokens are set; the tokens are
      parameters here instead of module-level environment lookups. */
  function CheckTokens(practicumToken: Option<string>, telegramToken: Option<string>,
                       telegramChatId: Option<string>): (r: Result<()>)
    ensures r.Err? <==> Unset(practicumToken) || Unset(telegramToken) || Unset(telegramChatId)
    ensures r.Err? ==> r.exc == Exception(TokensMessage)
  {
    if !(Truthy(practicumToken) && Truthy(telegramToken) && Truthy(telegramChatId)) then
      Err(Exception(TokensMessage))
    else
      Ok(())
  }

  // ---------------------------------------------------------------------------
  // Status formatter

  /** `parse_status`: the verdict sentence for a known status, the fallback
      `WrongStatus` whenever a key lookup fails, and Python's `TypeError` when
      the record is not a dict or its status cannot be a dict key.
      `pyStr` is Python's `str()` for a `homework_name` that is not a string. */
  function ParseStatus(homework: Json, pyStr: Json -> string): (r: Result<string>)
    ensures r.Err? <==>
      !homework.JObj? || ("status" in homework.fields && !Hashable(homework.fields["status"]))
    ensures r.Err? ==> r.exc == TypeError
    ensures r.Ok? && r.value != WrongStatus ==>
      && "status" in homework.fields && KnownStatus(homework.fields["status"])
      && "homework_name" in homework.fields
  {
    match homework
    case JObj(record) =>
      if "status" !in record then Ok(WrongStatus)
      else if !Hashable(record["status"]) then Err(TypeError)
      else if !KnownStatus(record["status"]) then Ok(WrongStatus)
      else if "homework_name" !in record then Ok(WrongStatus)
      else Ok(StatusMessage(Str(record["homework_name"], pyStr), Verdicts[record["status"].s]))
    case _ => Err(TypeError)
  }

  /** A record with a known status and a name yields the verdict sentence,
      with the verdict text taken from the table. */
  lemma ParseStatusKnown(record: map<string, Json>, pyStr: Json -> string)
    requires "status" in record && KnownStatus(record["status"])
    requires "homework_name" in record
    ensures ParseStatus(JObj(record), pyStr)
         == Ok(StatusMessage(Str(record["homework_name"], pyStr), Verdicts[record["status"].s]))
  {
  }

  /** The formatter falls back to `WrongStatus` exactly when the status is
      missing, is not a key of the table, or the name is missing; as long as
      the status is absent or hashable it never raises. */
  lemma ParseStatusFallback(record: map<string, Json>, pyStr: Json -> string)
    requires "status" in record ==> Hashable(record["status"])
    ensures ParseStatus(JObj(record), pyStr).Ok?
    ensures ParseStatus(JObj(record), pyStr) == Ok(WrongStatus) <==>
      || "status" !in record
      || !KnownStatus(record["status"])
      || "homework_name" !in record
  {
    if "status" in record && KnownStatus(record["status"]) && "homework_name" in record
    {
      var message := StatusMessage(Str(record["homework_name"], pyStr), Verdicts[record["status"].s]);
      assert message[0] == 'И' && WrongStatus[0] == 'Н';
    }
  }

  /** The three verdict sentences, spelled out, for a record carrying only a
      status and a string name. */
  lemma VerdictSentences(name: string, pyStr: Json -> string)
    ensures ParseStatus(JObj(map["status" := JStr("approved"), "homework_name" := JStr(name)]), pyStr)
         == Ok("Изменился статус проверки работы \"" + name + "\". " + "Работа проверена: ревьюеру всё понравилось. Ура!")
    ensures ParseStatus(JObj(map["status" := JStr("reviewing"), "homework_name" := JStr(name)]), pyStr)
         == Ok("Изменился статус проверки работы \"" + name + "\". " + "Работа взята на проверку ревьюером.")
    ensures ParseStatus(JObj(map["status" := JStr("rejected"), "homework_name" := JStr(name)]), pyStr)
         == Ok("Изменился статус проверки работы \"" + name + "\". " + "Работа проверена: у ревьюера есть замечания.")
  {
  }
}
