/** The decision layer of the homework notifier: the token presence check, the shape
    check of an API answer, and the translation of a homework's status into the
    sentence sent to the student.
 */
module Homework {
  import opened Results
  import opened PyJson

  /** The verdict sentence for each review status the API reports. */
  const HomeworkVerdicts: map<string, string> := map[
    "approved" := "Работа проверена: ревьюеру всё понравилось. Ура!",
    "reviewing" := "Работа взята на проверку ревьюером.",
    "rejected" := "Работа проверена: у ревьюера есть замечания."
  ]

  /* ---------------------------------------------------------------------------
     Tokens
     ------------------------------------------------------------------------ */

  /** Walks the three secrets in order and fails on the first one that is missing
      (None). Only absence is checked: an empty string passes. */
  method CheckTokens(practicumToken: Option<string>, telegramToken: Option<string>,
                     telegramChatId: Option<string>)
    returns (r: Outcome)
    ensures r.Pass? <==> practicumToken.Some? && telegramToken.Some? && telegramChatId.Some?
    ensures r.Fail? ==> r.error == GenericErr
  {
    var tokenList := [practicumToken, telegramToken, telegramChatId];
    var i := 0;
    while i < |tokenList|
      invariant 0 <= i <= |tokenList|
      invariant forall k :: 0 <= k < i ==> tokenList[k].Some?
    {
      if tokenList[i].None? {
        return Fail(GenericErr);
      }
      i := i + 1;
    }
    assert tokenList[0].Some? && tokenList[1].Some? && tokenList[2].Some?;
    return Pass;
  }

  /* ---------------------------------------------------------------------------
     Response shape
     ------------------------------------------------------------------------ */

  /** The shape the API documentation promises: a dict holding a list of homeworks. */
  predicate WellShaped(response: Json) {
    && response.JObject?
    && "homeworks" in response.fields
    && response.fields["homeworks"].JList?
  }

  /** Checks, in this order, that the answer is a dict, that it has a `homeworks` key
      and that the value under it is a list. */
  function CheckResponse(response: Json): (r: Result<bool>)
    ensures r.Ok? <==> WellShaped(response)
    ensures r.Ok? ==> r.value
    ensures !response.JObject? ==> r == Err(TypeErr)
    ensures response.JObject? && "homeworks" !in response.fields ==> r == Err(KeyErr)
    ensures (response.JObject? && "homeworks" in response.fields
             && !response.fields["homeworks"].JList?) ==> r == Err(TypeErr)
  {
    if !response.JObject? then Err(TypeErr)
    else if In("homeworks", response) == Ok(false) then Err(KeyErr)
    else
      match GetItem(response, "homeworks")
      case Err(e) => Err(e)
      case Ok(homeworks) => if !homeworks.JList? then Err(TypeErr) else Ok(true)
  }

  /* ---------------------------------------------------------------------------
     Status sentence
     ------------------------------------------------------------------------ */

  /** The notification text for a homework called `name` with verdict `verdict`. */
  function Notification(name: string, verdict: string): string {
    "Изменился статус проверки работы \"" + name + "\". " + verdict
  }

  /** A dict that has both a `homework_name` and a `status` key. */
  predicate HasNameAndStatus(homework: Json) {
    homework.JObject? && "homework_name" in homework.fields && "status" in homework.fields
  }

  /** The status of a homework is one the verdict table knows. */
  predicate KnownVerdict(homework: Json)
    requires HasNameAndStatus(homework)
  {
    homework.fields["status"].JStr? && homework.fields["status"].s in HomeworkVerdicts
  }

  /** Builds the notification for one homework. The name key is checked first, so a
      homework without `homework_name` raises KeyError whatever its status; a missing
      `status` raises KeyError from the subscript; a status outside the verdict table
      raises KeyError, or TypeError when it is a list or dict (unhashable). */
  function ParseStatus(homework: Json): (r: Result<string>)
    ensures r.Ok? <==> HasNameAndStatus(homework) && KnownVerdict(homework)
    ensures r.Ok? ==> r.value == Notification(Str(homework.fields["homework_name"]),
                                              HomeworkVerdicts[homework.fields["status"].s])
    ensures homework.JObject? && "homework_name" !in homework.fields ==> r == Err(KeyErr)
    ensures (homework.JObject? && "homework_name" in homework.fields
             && "status" !in homework.fields) ==> r == Err(KeyErr)
    ensures HasNameAndStatus(homework) && !KnownVerdict(homework) ==>
              r == Err(if homework.fields["status"].JList? || homework.fields["status"].JObject?
                       then TypeErr else KeyErr)
    // A list or str is searched for the name; if found, subscripting it by a string
    // raises TypeError, otherwise the missing name raises KeyError.
    ensures homework.JList? ==>
              r == Err(if JStr("homework_name") in homework.items then TypeErr else KeyErr)
    ensures homework.JStr? ==>
              r == Err(if IsSubstring("homework_name", homework.s) then TypeErr else KeyErr)
    ensures homework.JNull? || homework.JBool? || homework.JInt? ==> r == Err(TypeErr)
  {
    var hasName :- In("homework_name", homework);
    if !hasName then Err(KeyErr)
    else
      var homeworkName :- GetItem(homework, "homework_name");
      var status :- GetItem(homework, "status");
      var known :- KeyIn(status, HomeworkVerdicts);
      if !known then Err(KeyErr)
      else Ok(Notification(Str(homeworkName), HomeworkVerdicts[status.s]))
  }

  /** For a string name and a known status the sentence is exactly the name in
      quotes followed by the verdict; no other key of the homework matters. */
  lemma ParseStatusSentence(homework: Json, name: string, status: string)
    requires homework.JObject?
    requires "homework_name" in homework.fields && homework.fields["homework_name"] == JStr(name)
    requires "status" in homework.fields && homework.fields["status"] == JStr(status)
    requires status in HomeworkVerdicts
    ensures ParseStatus(homework)
            == Ok("Изменился статус проверки работы \"" + name + "\". " + HomeworkVerdicts[status])
  {
  }

  /** A homework with a string status, whatever its name, yields a sentence for exactly
      the three statuses of the verdict table, and raises KeyError for any other. */
  lemma ParseStatusKnowsThreeStatuses(homework: Json, status: string)
    requires HasNameAndStatus(homework)
    requires homework.fields["status"] == JStr(status)
    ensures ParseStatus(homework).Ok? <==> status in {"approved", "reviewing", "rejected"}
    ensures ParseStatus(homework).Err? ==> ParseStatus(homework) == Err(KeyErr)
  {
  }

  /** The result depends on the `homework_name` and `status` entries only. */
  lemma ParseStatusIgnoresOtherKeys(h1: Json, h2: Json)
    requires h1.JObject? && h2.JObject?
    requires "homework_name" in h1.fields <==> "homework_name" in h2.fields
    requires "homework_name" in h1.fields ==>
               h1.fields["homework_name"] == h2.fields["homework_name"]
    requires "status" in h1.fields <==> "status" in h2.fields
    requires "status" in h1.fields ==> h1.fields["status"] == h2.fields["status"]
    ensures ParseStatus(h1) == ParseStatus(h2)
  {
  }

  /* ---------------------------------------------------------------------------
     Reading a status back from a sentence
     ------------------------------------------------------------------------ */

  predicate EndsWith(text: string, suffix: string) {
    |suffix| <= |text| && text[|text| - |suffix|..] == suffix
  }

  /** The status whose verdict closes `message`, if any. */
  function StatusOfNotification(message: string): Option<string> {
    if EndsWith(message, HomeworkVerdicts["approved"]) then Some("approved")
    else if EndsWith(message, HomeworkVerdicts["reviewing"]) then Some("reviewing")
    else if EndsWith(message, HomeworkVerdicts["rejected"]) then Some("rejected")
    else None
  }

  /** A text that ends with `verdict` ends with the same last two characters. */
  lemma EndsWithSharesLastTwo(text: string, verdict: string, other: string)
    requires |verdict| >= 2 && |other| >= 2
    requires EndsWith(text, verdict) && EndsWith(text, other)
    ensures verdict[|verdict| - 1] == other[|other| - 1]
    ensures verdict[|verdict| - 2] == other[|other| - 2]
  {
  }

  /** No verdict text ends with another one, so a sentence's closing verdict is
      unambiguous. */
  lemma VerdictsDoNotEndOneAnother()
    ensures forall s, t :: s in HomeworkVerdicts && t in HomeworkVerdicts && s != t ==>
              !EndsWith(HomeworkVerdicts[s], HomeworkVerdicts[t])
  {
    forall s, t | s in HomeworkVerdicts && t in HomeworkVerdicts && s != t
      ensures !EndsWith(HomeworkVerdicts[s], HomeworkVerdicts[t])
    {
      var v, w := HomeworkVerdicts[s], HomeworkVerdicts[t];
      if EndsWith(v, w) {
        EndsWithSharesLastTwo(v, v, w);
        assert false;
      }
    }
  }

  /** Every notification names its status: the verdict it ends with is the one of
      the status it was built for, and of no other status. */
  lemma NotificationNamesItsStatus(name: string, status: string)
    requires status in HomeworkVerdicts
    ensures StatusOfNotification(Notification(name, HomeworkVerdicts[status])) == Some(status)
  {
    var message := Notification(name, HomeworkVerdicts[status]);
    var verdict := HomeworkVerdicts[status];
    assert message == ("Изменился статус проверки работы \"" + name + "\". ") + verdict;
    assert EndsWith(message, verdict);
    var approved := HomeworkVerdicts["approved"];
    var reviewing := HomeworkVerdicts["reviewing"];
    var rejected := HomeworkVerdicts["rejected"];
    if status != "approved" && EndsWith(message, approved) {
      EndsWithSharesLastTwo(message, verdict, approved);
      assert false;
    }
    if status == "rejected" && EndsWith(message, reviewing) {
      EndsWithSharesLastTwo(message, verdict, reviewing);
      assert false;
    }
  }

  /** A successful parse can be read back to the status it came from. */
  lemma ParseStatusIsReadable(homework: Json)
    requires ParseStatus(homework).Ok?
    ensures StatusOfNotification(ParseStatus(homework).value) == Some(homework.fields["status"].s)
  {
    NotificationNamesItsStatus(Str(homework.fields["homework_name"]), homework.fields["status"].s);
  }
}
