/**
 * The job order the worker receives (`item.item` in `processItem`), reduced
 * to the fields the worker reads. Numbers that the source concatenates into
 * strings (the job id) are kept as their decimal text.
 */
module Jobs {
  import opened Wrappers

  /** `config.reposity`: short name, clone URI and branch. */
  datatype Repository = Repository(name: string, uri: string, branch: string)

  /** One entry of `config.container.secondary`: a linked service container. */
  datatype SecondarySpec = SecondarySpec(image: string, name: string, command: seq<string>, alias: string)

  /**
   * A job order. `secondary` is `None` when the order has no
   * `container.secondary` list at all.
   */
  datatype Job = Job(
    id: string,
    repository: Repository,
    commands: seq<string>,
    skipSetup: bool,
    primaryImage: string,
    containerName: string,
    secondary: Option<seq<SecondarySpec>>,
    timeout: int,
    artifactPath: string)
}
