/**
 * The job catalog: human-friendly labels mapped to the job's canonical name
 * and its numeric id in the job-execution backend, and the name-to-id map the
 * executor resolves plans through.
 */
module Jobs {
  import opened Wrappers

  datatype JobEntry = JobEntry(jobName: string, jobId: int)

  /** The catalog in its declaration order: (label, entry) pairs. Labels are dict keys, so they are distinct. */
  type Catalog = c: seq<(string, JobEntry)> | forall i, j :: 0 <= i < j < |c| ==> c[i].0 != c[j].0
    witness []

  /** The catalog the application is configured with. */
  const Configured: Catalog := [("test db job", JobEntry("Test_DB_Job1", 1234567890))]

  /** The canonical names the catalog declares. */
  function Names(catalog: Catalog): set<string> {
    set i | 0 <= i < |catalog| :: catalog[i].1.jobName
  }

  /**
   * `JOB_NAME_TO_ID`: built by walking the catalog's entries in order, so when
   * two entries share a name the later one's id is kept.
   */
  function NameToId(catalog: Catalog): (m: map<string, int>)
    ensures m.Keys == Names(catalog)
    ensures forall name :: name in m ==>
              exists i :: 0 <= i < |catalog| && catalog[i].1 == JobEntry(name, m[name])
  {
    if |catalog| == 0 then map[]
    else
      var entry := catalog[|catalog| - 1].1;
      var earlier := catalog[..|catalog| - 1];
      assert Names(catalog) == Names(earlier) + {entry.jobName} by {
        assert forall i :: 0 <= i < |earlier| ==> earlier[i] == catalog[i];
      }
      NameToId(earlier)[entry.jobName := entry.jobId]
  }

  /** An entry whose name no later entry repeats is the one the map returns for that name. */
  lemma {:induction false} NameToIdLastEntryWins(catalog: Catalog, i: int)
    requires 0 <= i < |catalog|
    requires forall j :: i < j < |catalog| ==> catalog[j].1.jobName != catalog[i].1.jobName
    ensures NameToId(catalog)[catalog[i].1.jobName] == catalog[i].1.jobId
  {
    if i < |catalog| - 1 {
      var earlier := catalog[..|catalog| - 1];
      NameToIdLastEntryWins(earlier, i);
    }
  }

  /** With distinct names every entry's name maps to that entry's id. */
  lemma NameToIdInvertsCatalog(catalog: Catalog)
    requires forall i, j :: 0 <= i < j < |catalog| ==> catalog[i].1.jobName != catalog[j].1.jobName
    ensures forall i :: 0 <= i < |catalog| ==> NameToId(catalog)[catalog[i].1.jobName] == catalog[i].1.jobId
  {
    forall i | 0 <= i < |catalog|
      ensures NameToId(catalog)[catalog[i].1.jobName] == catalog[i].1.jobId
    {
      NameToIdLastEntryWins(catalog, i);
    }
  }

  /** `JOB_NAME_TO_ID[job_name]`: the id, or a failure carrying the name when the catalog has no such job. */
  function LookupJob(catalog: Catalog, jobName: string): (r: Result<int, string>)
    ensures r.Success? <==> exists i :: 0 <= i < |catalog| && catalog[i].1.jobName == jobName
    ensures r.Failure? ==> r.error == jobName
    ensures r.Success? ==> exists i :: 0 <= i < |catalog| && catalog[i].1 == JobEntry(jobName, r.value)
  {
    var m := NameToId(catalog);
    if jobName in m then Success(m[jobName]) else Failure(jobName)
  }

  /** The configured catalog maps exactly one name, to its id. */
  lemma ConfiguredNameToId()
    ensures NameToId(Configured) == map["Test_DB_Job1" := 1234567890]
  {
    assert Configured[..0] == [];
  }
}
