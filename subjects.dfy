/** The mapping from an event type and a state to the broker subject the event is
    published to (cmd/main.go:238-278). */
module Subjects {
  import opened Flags

  const Prefix := "claude."

  /** The fallback subject of an event type: the type, pluralised, under the prefix. */
  function BaseSubject(eventType: string): string {
    Prefix + eventType + "s"
  }

  /** Total: every (type, state) pair has a subject, and every subject lies under the prefix. */
  function MapSubject(eventType: string, state: string): (r: string)
    ensures Prefix <= r && |r| > |Prefix|
  {
    if eventType == "task" && state != "" then
      if state == "in_progress" then "claude.tasks.started"
      else if state == "completed" then "claude.tasks.completed"
      else if state == "blocked" then "claude.tasks.blocked"
      else BaseSubject(eventType)
    else if eventType == "question" then
      if state == "blocked" then "claude.questions.waiting" else "claude.questions.asked"
    else if eventType == "progress" then
      "claude.progress.update"
    else if eventType == "session" then
      if state == "completed" then "claude.session.completed" else "claude.session.started"
    else
      BaseSubject(eventType)
  }

  /** The nine subjects of the published subject table. */
  const TableSubjects: set<string> := {
    "claude.tasks.started", "claude.tasks.completed", "claude.tasks.blocked", "claude.tasks",
    "claude.questions.waiting", "claude.questions.asked",
    "claude.progress.update",
    "claude.session.completed", "claude.session.started"
  }

  /** Reads the event type back out of a subject; the inverse of `MapSubject` in its type argument. */
  function TypeOfSubject(subject: string): string {
    if subject == "claude.tasks.started" || subject == "claude.tasks.completed" || subject == "claude.tasks.blocked" then "task"
    else if subject == "claude.questions.waiting" || subject == "claude.questions.asked" then "question"
    else if subject == "claude.progress.update" then "progress"
    else if subject == "claude.session.completed" || subject == "claude.session.started" then "session"
    else if |subject| > |Prefix| && subject[..|Prefix|] == Prefix && subject[|subject| - 1] == 's' then
      subject[|Prefix|..|subject| - 1]
    else ""
  }

  /** Task events: three states have their own subject, every other state (the empty one
      included) falls back to the plain task subject. */
  lemma TaskSubjects(state: string)
    ensures MapSubject("task", state) == "claude.tasks.started" <==> state == "in_progress"
    ensures MapSubject("task", state) == "claude.tasks.completed" <==> state == "completed"
    ensures MapSubject("task", state) == "claude.tasks.blocked" <==> state == "blocked"
    ensures MapSubject("task", state) == "claude.tasks" <==> state !in {"in_progress", "completed", "blocked"}
  {
  }

  /** Question events wait exactly when blocked; progress ignores the state; a session
      completes exactly when its state says so. */
  lemma OtherSubjects(state: string)
    ensures MapSubject("question", state) == "claude.questions.waiting" <==> state == "blocked"
    ensures MapSubject("question", state) == "claude.questions.asked" <==> state != "blocked"
    ensures MapSubject("progress", state) == "claude.progress.update"
    ensures MapSubject("session", state) == "claude.session.completed" <==> state == "completed"
    ensures MapSubject("session", state) == "claude.session.started" <==> state != "completed"
  {
  }

  /** A type outside the closed set gets the pluralised fallback, whatever the state. */
  lemma UnknownTypeFallsBack(eventType: string, state: string)
    requires eventType !in ValidTypes
    ensures MapSubject(eventType, state) == Prefix + eventType + "s"
  {
  }

  /** The subject always identifies the event type it was computed from. */
  lemma {:induction false} SubjectDeterminesType(eventType: string, state: string)
    ensures TypeOfSubject(MapSubject(eventType, state)) == eventType
  {
    var r := MapSubject(eventType, state);
    if r == BaseSubject(eventType) {
      assert r[|r| - 1] == 's';
      assert r[..|Prefix|] == Prefix;
      assert r[|Prefix|..|r| - 1] == eventType;
      var lasts := ["claude.tasks.started"[19], "claude.tasks.completed"[21], "claude.tasks.blocked"[19],
                    "claude.questions.waiting"[23], "claude.questions.asked"[21], "claude.progress.update"[21],
                    "claude.session.completed"[23], "claude.session.started"[21]];
      assert 's' !in lasts;
    }
  }

  /** The subject lies in the published table exactly when the type is one of the four
      accepted by validation. */
  lemma {:induction false} TableSubjectIffValidType(eventType: string, state: string)
    ensures MapSubject(eventType, state) in TableSubjects <==> eventType in ValidTypes
  {
    SubjectDeterminesType(eventType, state);
    var r := MapSubject(eventType, state);
    if r == "claude.tasks" {
      assert r[..|Prefix|] == Prefix && r[|r| - 1] == 's' && r[|Prefix|..|r| - 1] == "task";
    }
    if eventType in ValidTypes {
      assert r in TableSubjects;
    }
  }
}
