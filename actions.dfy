/**
 * The state the database action mixins share through `self`: the base list
 * (held by reference, the same list the window holds), the outside world,
 * the last launched base and the cached console script path.
 */
module Actions {
  import opened Wrappers
  import opened Models
  import Host

  class DatabaseActions {
    const bases: BaseList
    const host: Host.Host
    var lastLaunchedDb: Option<Database1C>
    var tempConsolePs1: Option<string>

    constructor (bases: BaseList, host: Host.Host)
      ensures this.bases == bases && this.host == host
      ensures lastLaunchedDb.None? && tempConsolePs1.None?
    {
      this.bases := bases;
      this.host := host;
      lastLaunchedDb := None;
      tempConsolePs1 := None;
    }
  }
}
