/** The container entity the lab devices act on. */
module Containers {
  import opened PyValues

  /** A container: where it is and its free-form metadata. */
  class Container {
    var location: string
    var metadata: map<string, Value>

    constructor(location: string, metadata: map<string, Value>)
      ensures this.location == location && this.metadata == metadata
    {
      this.location := location;
      this.metadata := metadata;
    }
  }
}
