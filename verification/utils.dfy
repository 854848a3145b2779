/**
 * The records the dependency rules operate on (a00_qpip/utils.py):
 * a requirement of one plugin with the outcome of resolving it (`Req`),
 * and everything known about one library (`Lib`).
 */
module Utils {
  import opened Wrappers

  /**
   * The two `pkg_resources` resolution errors that the checker catches.
   * `VersionConflict` carries the installed distribution that has the wrong
   * version (its `dist`, as shown in the earlier prototype's dialog);
   * `ContextualVersionConflict` is a `VersionConflict` too.
   */
  datatype ResolutionError =
    | VersionConflict(dist: string)
    | DistributionNotFound

  /**
   * One requirement line of one plugin: the plugin that declares it, the
   * requirement as written, and `None` when it resolved or the error it raised.
   * The record is immutable: it stores its three arguments unchanged.
   */
  datatype Req = Req(plugin: string, requirement: string, error: Option<ResolutionError>)

  /** An installed distribution: its metadata name, its version and the directory it lies in. */
  datatype Dist = Dist(name: string, version: string, location: string)

  /** The value held by a `Lib` at one moment. */
  datatype LibView = LibView(
    name: Option<string>,
    requiredBy: seq<Req>,
    installedDist: Option<Dist>,
    qpip: bool)

  /** The value of a `Lib` just after construction. */
  const FreshLib := LibView(None, [], None, true)

  /**
   * Everything known about one library. The fields are filled in after
   * construction by the reconciliation pass; `qpip` stays true until an
   * installed distribution of the library is found outside the QPIP prefix.
   */
  class Lib {
    var name: Option<string>
    var requiredBy: seq<Req>
    var installedDist: Option<Dist>
    var qpip: bool

    /** A new library has no name, no requirement, no installed distribution, and is QPIP-managed. */
    constructor ()
      ensures name == None && requiredBy == [] && installedDist == None && qpip
      ensures View() == FreshLib
    {
      name := None;
      requiredBy := [];
      installedDist := None;
      qpip := true;
    }

    function View(): LibView
      reads this
    {
      LibView(name, requiredBy, installedDist, qpip)
    }
  }
}
