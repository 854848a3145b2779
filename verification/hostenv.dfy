/**
 * What the plugins learn from their host and from the packaging library,
 * given as plain data. Nothing here is computed by QPIP itself.
 */
module HostEnv {
  import opened Wrappers
  import opened Utils

  /** A parsed requirement line: the project key it names and its text (`str(requirement)`). */
  datatype Requirement = Requirement(key: string, text: string)

  /**
   * The state of the host and of the Python environment during one call:
   *  - `activePlugins`: the host's list of active plugins (`qgis.utils.active_plugins`);
   *  - `distributions`: the installed distributions, in the order the metadata index lists them;
   *  - `requirementFiles`: each plugin's parsed `requirements.txt`; a plugin without the file is absent;
   *  - `resolve`: the outcome of requiring one requirement text against the working set;
   *  - `canLoad`, `canStart`: what the host's original `loadPlugin` and `startPlugin` return.
   */
  datatype Environment = Environment(
    activePlugins: seq<string>,
    distributions: seq<Dist>,
    requirementFiles: map<string, seq<Requirement>>,
    resolve: string -> Option<ResolutionError>,
    canLoad: string -> bool,
    canStart: string -> bool)
}
