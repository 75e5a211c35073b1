/**
 * What `processItem` derives from a job order before it touches the
 * container runtime: the secondary containers and their links, the checkout
 * path, the host bind, the artifact record and the primary container.
 */
module JobConfig {
  import opened Wrappers
  import opened Strings
  import opened Jobs
  import opened BuildScript

  /** The options a `Container` is constructed with. */
  datatype ContainerConfig = ContainerConfig(
    image: string,
    name: string,
    command: seq<string>,
    streamsOutput: bool,    // `stdOut` is the job item rather than null
    timeout: Option<int>,
    volumes: set<string>,
    links: seq<string>,
    binds: Option<string>)

  /** The artifact part of the job result. */
  datatype Artifact = Artifact(produce: bool, name: string, path: string)

  /** `_.map` over a possibly absent list: an absent list maps to `[]`. */
  function Entries(secondary: Option<seq<SecondarySpec>>): seq<SecondarySpec>
  {
    match secondary
    case None => []
    case Some(list) => list
  }

  /**
   * `getSecondaryContainers`: one container per secondary entry, in order,
   * running the entry's image under its name with its command, with no
   * output sink, timeout, volume, link or bind.
   */
  function SecondaryContainers(secondary: Option<seq<SecondarySpec>>): (r: seq<ContainerConfig>)
    ensures |r| == |Entries(secondary)|
    ensures forall i :: 0 <= i < |r| ==>
      var e := Entries(secondary)[i];
      r[i] == ContainerConfig(e.image, e.name, e.command, false, None, {}, [], None)
  {
    var entries := Entries(secondary);
    seq(|entries|, i requires 0 <= i < |entries| =>
      ContainerConfig(entries[i].image, entries[i].name, entries[i].command, false, None, {}, [], None))
  }

  /** `getSecondaryLinks`: `name:alias` for each secondary entry. */
  function SecondaryLinks(secondary: Option<seq<SecondarySpec>>): seq<string>
  {
    var entries := Entries(secondary);
    seq(|entries|, i requires 0 <= i < |entries| => entries[i].name + ":" + entries[i].alias)
  }

  /**
   * Links and secondary containers line up: there is one link per secondary
   * container, in the same order, and when names and aliases hold no `:` the
   * runtime reads link i back as exactly (name of container i, alias i).
   */
  lemma {:induction false} LinksNameSecondaries(secondary: Option<seq<SecondarySpec>>)
    requires forall i :: 0 <= i < |Entries(secondary)| ==>
      ':' !in Entries(secondary)[i].name && ':' !in Entries(secondary)[i].alias
    ensures |SecondaryLinks(secondary)| == |SecondaryContainers(secondary)|
    ensures forall i :: 0 <= i < |SecondaryLinks(secondary)| ==>
      Split(SecondaryLinks(secondary)[i], ':') ==
        [SecondaryContainers(secondary)[i].name, Entries(secondary)[i].alias]
  {
    var links := SecondaryLinks(secondary);
    forall i | 0 <= i < |links|
      ensures Split(links[i], ':') == [SecondaryContainers(secondary)[i].name, Entries(secondary)[i].alias]
    {
      var e := Entries(secondary)[i];
      SplitJoin([e.name, e.alias], ':');
      JoinTwo(e.name, e.alias, ':');
    }
  }

  /** Where the repository is checked out inside the primary container. */
  function CheckoutPath(repoName: string): string
  {
    "/home/" + repoName
  }

  /**
   * The checkout path is the directory named after the repository directly
   * under `/home`.
   */
  lemma {:induction false} CheckoutUnderHome(repoName: string)
    requires '/' !in repoName
    ensures Split(CheckoutPath(repoName), '/') == ["", "home", repoName]
    ensures Basename(CheckoutPath(repoName)) == repoName
  {
    CheckoutSplit(repoName);
    CheckoutBasename(repoName);
  }

  lemma CheckoutSplit(repoName: string)
    requires '/' !in repoName
    ensures Split(CheckoutPath(repoName), '/') == ["", "home", repoName]
  {
    var parts := ["", "home", repoName];
    assert Free(parts, '/') by {
      assert '/' !in parts[1];
    }
    SplitJoin(parts, '/');
    JoinThree("", "home", repoName, '/');
    assert "" + "/" + "home" + "/" == "/home/";
  }

  lemma CheckoutBasename(repoName: string)
    requires '/' !in repoName
    ensures Basename(CheckoutPath(repoName)) == repoName
  {
    BasenameUnder("/home", repoName);
    BasenameOfName(repoName);
    assert "/home" + "/" == "/home/";
  }

  /** The docker bind that mounts the scratch directory at the checkout path. */
  function Bind(dir: string, checkoutpath: string): string
  {
    dir + ":" + checkoutpath
  }

  /** The runtime reads the bind back as (host directory, container path). */
  lemma BindParse(dir: string, checkoutpath: string)
    requires ':' !in dir && ':' !in checkoutpath
    ensures Split(Bind(dir, checkoutpath), ':') == [dir, checkoutpath]
  {
    SplitJoin([dir, checkoutpath], ':');
    JoinTwo(dir, checkoutpath, ':');
  }

  /**
   * The artifact record: it is produced exactly when the job names an
   * artifact path; it is named `<repo>_<id>_<basename>` and located at
   * that path inside the scratch directory.
   */
  function ArtifactOf(job: Job, dir: string): (r: Artifact)
    ensures r.produce <==> job.artifactPath != ""
    ensures r.name == job.repository.name + "_" + job.id + "_" + Basename(job.artifactPath)
    ensures r.path == dir + "/" + job.artifactPath
  {
    JoinThree(job.repository.name, job.id, Basename(job.artifactPath), '_');
    JoinTwo(dir, job.artifactPath, '/');
    Artifact(
      job.artifactPath != "",
      Join([job.repository.name, job.id, Basename(job.artifactPath)], '_'),
      Join([dir, job.artifactPath], '/'))
  }

  /**
   * The artifact's name ends with the file name of the path it is read from:
   * the stored name identifies the file that was built.
   */
  lemma ArtifactNamesItsFile(job: Job, dir: string)
    ensures var a := ArtifactOf(job, dir);
      Basename(a.path) == Basename(job.artifactPath) &&
      a.name == job.repository.name + "_" + job.id + "_" + Basename(a.path)
  {
    BasenameUnder(dir, job.artifactPath);
  }

  /**
   * The primary container: the job's image under `<container name><id>`,
   * running the generated script through `bash -c`, streaming its output to
   * the job, with the job's timeout, the checkout path as volume, the links
   * to the secondaries and the scratch directory bound at the checkout path.
   */
  function PrimaryContainer(job: Job, dir: string): ContainerConfig
  {
    var checkoutpath := CheckoutPath(job.repository.name);
    ContainerConfig(
      job.primaryImage,
      job.containerName + job.id,
      ["/bin/bash", "-c", Script(job, checkoutpath)],
      true,
      Some(job.timeout),
      {checkoutpath},
      SecondaryLinks(job.secondary),
      Some(Bind(dir, checkoutpath)))
  }

  /**
   * The primary container is wired consistently: bash runs the script as
   * one argument; the bind mounts the scratch directory at the declared
   * volume, which is the directory the setup step clones into; and the
   * artifact is read from under the host side of that bind.
   */
  lemma PrimaryWiring(job: Job, dir: string)
    requires ':' !in dir && ':' !in job.repository.name
    ensures var p := PrimaryContainer(job, dir);
      var checkoutpath := CheckoutPath(job.repository.name);
      |p.command| == 3 && p.command[..2] == ["/bin/bash", "-c"] &&
      p.command[2] == Script(job, checkoutpath) &&
      p.name == job.containerName + job.id &&
      p.binds.Some? && Split(p.binds.value, ':') == [dir, checkoutpath] &&
      p.volumes == {checkoutpath} &&
      (!job.skipSetup ==> Setup(job, checkoutpath)[..3 + |checkoutpath|] == "cd " + checkoutpath) &&
      ArtifactOf(job, dir).path == Split(p.binds.value, ':')[0] + "/" + job.artifactPath
  {
    var checkoutpath := CheckoutPath(job.repository.name);
    assert ':' !in checkoutpath by {
      assert checkoutpath == "/home/" + job.repository.name;
    }
    BindParse(dir, checkoutpath);
  }
}
