/** The container runtime as the controller drives it. Outcomes it cannot foresee are left open. */
module Containers {
  import opened Model
  import opened Protocol

  class Docker {
    var containers: Listing
    var nextContainer: ContainerId
    ghost var stuck: set<ContainerId>      // containers whose removal failed
    ghost var stops: seq<StopCall>         // every stop asked for, and whether its process started

    constructor ()
      ensures containers == map[] && nextContainer == 0 && stuck == {} && stops == []
    {
      containers, nextContainer, stuck, stops := map[], 0, {}, [];
    }

    /** `docker run`: a new running container, or a failure that may leave one behind. A name in use is
        always refused. */
    method Run(name: Name, gpu: GpuId) returns (container: Option<ContainerId>, leftover: bool)
      modifies this`containers, this`nextContainer
      ensures InUse(name, old(containers)) ==> container.None? && !leftover
      ensures container.Some? || leftover ==>
        && containers == old(containers)[old(nextContainer) := Container(name, gpu, true, 0)]
        && nextContainer == old(nextContainer) + 1
      ensures container.None? && !leftover ==> containers == old(containers) && nextContainer == old(nextContainer)
      ensures container.Some? ==> container.value == old(nextContainer) && !leftover
    {
      container, leftover := None, false;
      if InUse(name, containers) {
        return;
      }
      var works: bool := *;
      if works {
        container := Some(nextContainer);
      } else {
        leftover := *;
      }
      if works || leftover {
        containers := containers[nextContainer := Container(name, gpu, true, 0)];
        nextContainer := nextContainer + 1;
      }
    }

    /** `docker stop` in the background; its process may fail to start. */
    method StopAsync(c: ContainerId) returns (started: bool)
      modifies this`stops
      ensures stops == old(stops) + [StopCall(c, started)]
    {
      started := *;
      stops := stops + [StopCall(c, started)];
    }

    /** `docker rm -f`; a failure is only logged. */
    method SaveLogsAndRemove(c: ContainerId) returns (ghost removed: bool)
      modifies this`containers, this`stuck
      ensures removed ==> containers == old(containers) - {c} && stuck == old(stuck)
      ensures !removed ==> containers == old(containers) && stuck == old(stuck) + {c}
    {
      var works: bool := *;
      removed := works;
      if works {
        containers := containers - {c};
      } else {
        stuck := stuck + {c};
      }
    }
  }
}
