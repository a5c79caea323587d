/** The workers listing page: the case-insensitive search over name, location, bio and skills. */
module Workers {
  import opened Wrappers
  import Seqs
  import Text

  /** The profile fields joined onto a worker row. */
  datatype WorkerProfile = WorkerProfile(fullName: string, username: string, avatarUrl: string)

  /** A worker row as the page holds it; numbers are kept in their decimal form. */
  datatype Worker = Worker(
    id: string,
    hourlyRate: Option<string>,
    yearsExperience: Option<string>,
    bio: Option<string>,
    location: Option<string>,
    skills: Option<seq<string>>,
    profile: WorkerProfile)

  /** Some skill contains the (already lower-cased) term, ignoring case. */
  predicate SomeSkillContains(skills: seq<string>, t: string)
  {
    exists k :: 0 <= k < |skills| && Text.Contains(Text.Lower(skills[k]), t)
  }

  /** The term occurs, ignoring case, in the full name, the location, the bio or some skill. */
  predicate MatchesWorker(worker: Worker, term: string)
  {
    var t := Text.Lower(term);
    || Text.Contains(Text.Lower(worker.profile.fullName), t)
    || (worker.location.Some? && Text.Contains(Text.Lower(worker.location.value), t))
    || (worker.bio.Some? && Text.Contains(Text.Lower(worker.bio.value), t))
    || (worker.skills.Some? && SomeSkillContains(worker.skills.value, t))
  }

  /** The list shown for a search term: every worker for the empty term, otherwise the matching ones. */
  function SearchWorkers(workers: seq<Worker>, term: string): seq<Worker>
  {
    if term == "" then workers else Seqs.Filter(workers, w => MatchesWorker(w, term))
  }

  /** The empty term shows the workers exactly as fetched. */
  lemma EmptyTermShowsAll(workers: seq<Worker>)
    ensures SearchWorkers(workers, "") == workers
  {
  }

  /** The shown list is drawn from the fetched list in its order, and repeats nothing. */
  lemma SearchWorkersSubsequence(workers: seq<Worker>, term: string)
    ensures Seqs.IsSubsequence(SearchWorkers(workers, term), workers)
    ensures multiset(SearchWorkers(workers, term)) <= multiset(workers)
  {
    if term == "" {
      Seqs.SubsequenceReflexive(workers);
    } else {
      Seqs.FilterIsSubsequence(workers, w => MatchesWorker(w, term));
    }
    Seqs.SubsequenceMultiset(SearchWorkers(workers, term), workers);
  }

  /** For a non-empty term a fetched worker is shown exactly when it matches. */
  lemma SearchWorkersMembership(workers: seq<Worker>, term: string, worker: Worker)
    requires term != ""
    ensures worker in SearchWorkers(workers, term) <==> worker in workers && MatchesWorker(worker, term)
  {
    Seqs.FilterMembership(workers, w => MatchesWorker(w, term), worker);
  }

  /** A worker with no skills (none stored, or an empty list) can match only through name, location or bio. */
  lemma NoSkillsMatch(worker: Worker, term: string)
    requires worker.skills.None? || worker.skills == Some([])
    ensures MatchesWorker(worker, term) <==>
      || Text.Contains(Text.Lower(worker.profile.fullName), Text.Lower(term))
      || (worker.location.Some? && Text.Contains(Text.Lower(worker.location.value), Text.Lower(term)))
      || (worker.bio.Some? && Text.Contains(Text.Lower(worker.bio.value), Text.Lower(term)))
  {
  }

  /** A worker found by a longer term is found by every block of it. */
  lemma MatchesNarrow(worker: Worker, term: string, longer: string)
    requires Text.Contains(longer, term) && MatchesWorker(worker, longer)
    ensures MatchesWorker(worker, term)
  {
    var t, t' := Text.Lower(term), Text.Lower(longer);
    Text.LowerContains(longer, term);
    if Text.Contains(Text.Lower(worker.profile.fullName), t') {
      Text.ContainsTransitive(Text.Lower(worker.profile.fullName), t', t);
    } else if worker.location.Some? && Text.Contains(Text.Lower(worker.location.value), t') {
      Text.ContainsTransitive(Text.Lower(worker.location.value), t', t);
    } else if worker.bio.Some? && Text.Contains(Text.Lower(worker.bio.value), t') {
      Text.ContainsTransitive(Text.Lower(worker.bio.value), t', t);
    } else {
      var skills := worker.skills.value;
      var k :| 0 <= k < |skills| && Text.Contains(Text.Lower(skills[k]), t');
      Text.ContainsTransitive(Text.Lower(skills[k]), t', t);
    }
  }

  /** Typing more characters only narrows the list: the result for a longer term is a subsequence of the result for any block of it. */
  lemma SearchNarrows(workers: seq<Worker>, term: string, longer: string)
    requires Text.Contains(longer, term)
    ensures Seqs.IsSubsequence(SearchWorkers(workers, longer), SearchWorkers(workers, term))
  {
    if term == "" {
      SearchWorkersSubsequence(workers, longer);
    } else {
      forall w | MatchesWorker(w, longer) ensures MatchesWorker(w, term) {
        MatchesNarrow(w, term, longer);
      }
      Seqs.FilterMonotone(workers, w => MatchesWorker(w, longer), w => MatchesWorker(w, term));
    }
  }

  /** The workers page's state: the fetched workers (undefined until the query delivers), the term and the shown list. */
  class WorkersPage {
    var workers: Option<seq<Worker>>
    var searchTerm: string
    var filteredWorkers: seq<Worker>

    constructor ()
      ensures workers == None && searchTerm == "" && filteredWorkers == []
    {
      workers := None;
      searchTerm := "";
      filteredWorkers := [];
    }

    /** The search effect: only while the workers are defined does it overwrite the shown list. */
    method Refresh()
      modifies this`filteredWorkers
      ensures filteredWorkers == if workers.Some? then SearchWorkers(workers.value, searchTerm) else old(filteredWorkers)
    {
      if workers.Some? {
        filteredWorkers := SearchWorkers(workers.value, searchTerm);
      }
    }

    method SetSearchTerm(term: string)
      modifies this
      ensures searchTerm == term && workers == old(workers)
      ensures filteredWorkers == if workers.Some? then SearchWorkers(workers.value, term) else old(filteredWorkers)
    {
      searchTerm := term;
      Refresh();
    }

    /** The workers query delivered its rows. */
    method WorkersLoaded(rows: seq<Worker>)
      modifies this
      ensures workers == Some(rows) && searchTerm == old(searchTerm)
      ensures filteredWorkers == SearchWorkers(rows, searchTerm)
    {
      workers := Some(rows);
      Refresh();
    }
  }
}
