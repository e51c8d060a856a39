/** The value-level rules behind `submitSurvey`: the once-per-phase lookup and the
    uniqueness it keeps. */
module SurveyRules {
  import opened Domain

  /** At most one response per (user, event, phase). `submitSurvey` looks the triple up with a
      first-match query before inserting, and that lookup is what keeps it. */
  ghost predicate ResponseKeysUnique(rs: set<SurveyResponse>) {
    forall a, b | a in rs && b in rs :: a.userId == b.userId && a.eventId == b.eventId && a.phase == b.phase ==> a == b
  }

  /** The lookup of a response by user, event and phase finds one. */
  predicate Submitted(rs: set<SurveyResponse>, u: UserId, e: EventId, ph: Phase) {
    exists s | s in rs :: s.userId == u && s.eventId == e && s.phase == ph
  }

  /** Storing a response whose triple has none keeps responses unique. */
  lemma InsertKeepsResponsesUnique(rs: set<SurveyResponse>, s: SurveyResponse)
    requires ResponseKeysUnique(rs)
    requires !Submitted(rs, s.userId, s.eventId, s.phase)
    ensures ResponseKeysUnique(rs + {s})
  {
  }

  /** The lookup is keyed by phase: storing a response for one phase changes nothing about
      whether the other phase has been answered. */
  lemma {:induction false} PhasesAreIndependent(rs: set<SurveyResponse>, s: SurveyResponse, other: Phase)
    requires other != s.phase
    ensures Submitted(rs + {s}, s.userId, s.eventId, other) == Submitted(rs, s.userId, s.eventId, other)
  {
    if Submitted(rs + {s}, s.userId, s.eventId, other) {
      var t :| t in rs + {s} && t.userId == s.userId && t.eventId == s.eventId && t.phase == other;
      assert t != s;
      assert t in rs;
    }
  }

  /** After a response is stored, its triple counts as submitted: a second submission for it
      is refused. */
  lemma StoredResponseIsFound(rs: set<SurveyResponse>, s: SurveyResponse)
    ensures Submitted(rs + {s}, s.userId, s.eventId, s.phase)
  {
    assert s in rs + {s};
  }
}
