/**
 * Container, folder and test information of the older revision
 * (src/glotter/core/testinfo.py). Every key it reads is required: a missing one
 * raises KeyError. It has no display name, no notes and no truthiness rule.
 */
module LegacyTestInfos {
  import opened Wrappers
  import Naming
  import LegacyNaming
  import TestInfos

  /** `ContainerInfo.from_dict`: image, tag and cmd are required, in that order; build
      is optional. */
  function LegacyContainerFromDict(d: TestInfos.StringDict): (r: Result<TestInfos.ContainerInfo>)
    ensures "image" !in d ==> r == Err(KeyError("image"))
    ensures "image" in d && "tag" !in d ==> r == Err(KeyError("tag"))
    ensures "image" in d && "tag" in d && "cmd" !in d ==> r == Err(KeyError("cmd"))
    ensures r.Ok? <==> "image" in d && "tag" in d && "cmd" in d
    ensures r.Ok? ==> r.value.image == d["image"] && r.value.tag == d["tag"] && r.value.cmd == d["cmd"]
    ensures r.Ok? ==> r.value.build == (if "build" in d then Some(d["build"]) else None)
  {
    if "image" !in d then Err(KeyError("image"))
    else if "tag" !in d then Err(KeyError("tag"))
    else if "cmd" !in d then Err(KeyError("cmd"))
    else Ok(TestInfos.ContainerInfo(d["image"], d["tag"], d["cmd"], if "build" in d then Some(d["build"]) else None))
  }

  /** `get_project_mappings` over older projects. */
  function LegacyProjectMappings(f: TestInfos.FolderInfo, projects: map<string, LegacyNaming.LegacyProject>, includeExtension: bool): (r: map<string, string>)
    requires forall k :: k in projects ==> |projects[k].words| > 0
    ensures r.Keys == projects.Keys
    ensures forall k :: k in r ==>
      r[k] == LegacyNaming.GetProjectNameByScheme(projects[k], Naming.Scheme(f.naming)).value + (if includeExtension then f.extension else "")
  {
    var extension := if includeExtension then f.extension else "";
    map k | k in projects :: Naming.Render(LegacyNaming.Effective(projects[k]), f.naming) + extension
  }

  datatype LegacyTestInfo = LegacyTestInfo(containerInfo: TestInfos.ContainerInfo, fileInfo: TestInfos.FolderInfo)

  /** `TestInfo.from_dict`: the container mapping is read first, then the folder
      mapping; both are required. */
  function LegacyTestInfoFromDict(d: TestInfos.TestInfoDict): (r: Result<LegacyTestInfo>)
    ensures d.container.None? ==> r == Err(KeyError("container"))
    ensures d.container.Some? && LegacyContainerFromDict(d.container.value).Err? ==> r == Err(LegacyContainerFromDict(d.container.value).error)
    ensures d.container.Some? && LegacyContainerFromDict(d.container.value).Ok? && d.folder.None? ==> r == Err(KeyError("folder"))
    ensures (d.container.Some? && LegacyContainerFromDict(d.container.value).Ok? && d.folder.Some? &&
             TestInfos.FolderFromDict(d.folder.value).Err?) ==>
      r == Err(TestInfos.FolderFromDict(d.folder.value).error)
    ensures r.Ok? <==> (d.container.Some? && LegacyContainerFromDict(d.container.value).Ok? &&
                        d.folder.Some? && TestInfos.FolderFromDict(d.folder.value).Ok?)
    ensures r.Ok? ==> r.value == LegacyTestInfo(LegacyContainerFromDict(d.container.value).value, TestInfos.FolderFromDict(d.folder.value).value)
  {
    match d.container
    case None => Err(KeyError("container"))
    case Some(c) =>
      match LegacyContainerFromDict(c)
      case Err(e) => Err(e)
      case Ok(container) =>
        match d.folder
        case None => Err(KeyError("folder"))
        case Some(folder) =>
          match TestInfos.FolderFromDict(folder)
          case Err(e) => Err(e)
          case Ok(fileInfo) => Ok(LegacyTestInfo(container, fileInfo))
  }

  // ---------------------------------------------------------------------------

  /** Where the older revision reads a container it reads what the newer one reads, and
      every container the newer one finds testable the older one reads. */
  lemma ContainerAgreesWithNewerRevision(d: TestInfos.StringDict)
    ensures LegacyContainerFromDict(d).Ok? ==> LegacyContainerFromDict(d).value == TestInfos.ContainerFromDict(d)
    ensures TestInfos.IsTruthy(TestInfos.ContainerFromDict(d)) ==> LegacyContainerFromDict(d).Ok?
  {
  }

  /** A container without image, tag or cmd is refused by the older revision but
      defaulted by the newer one. */
  lemma MissingContainerKeysDiffer()
    ensures LegacyContainerFromDict(map[]) == Err(KeyError("image"))
    ensures TestInfos.ContainerFromDict(map[]) == TestInfos.ContainerInfo("", "", "", None)
  {
  }

  /** The older mappings are the newer mappings of the projects the older ones behave as. */
  lemma MappingsAgreeWithNewerRevision(f: TestInfos.FolderInfo, older: map<string, LegacyNaming.LegacyProject>, includeExtension: bool)
    requires forall k :: k in older ==> |older[k].words| > 0
    ensures LegacyProjectMappings(f, older, includeExtension)
      == TestInfos.GetProjectMappings(f, map k | k in older :: LegacyNaming.Effective(older[k]), includeExtension)
  {
  }

  /** An older testinfo that reads is read the same way by the newer revision: the
      same container and the same folder. */
  lemma TestInfoAgreesWithNewerRevision(d: TestInfos.TestInfoDict, language: string)
    requires LegacyTestInfoFromDict(d).Ok?
    ensures var newer := TestInfos.TestInfoFromDict(d, language);
      newer.Ok? &&
      newer.value.containerInfo == LegacyTestInfoFromDict(d).value.containerInfo &&
      newer.value.fileInfo == LegacyTestInfoFromDict(d).value.fileInfo
  {
  }

  /** A document with a folder but no container is refused by the older revision and
      read (as untestable) by the newer one. */
  lemma MissingContainerDiffers(folder: TestInfos.StringDict, language: string)
    requires TestInfos.FolderFromDict(folder).Ok?
    ensures var d := TestInfos.TestInfoDict(None, Some(folder), None, None);
      LegacyTestInfoFromDict(d) == Err(KeyError("container")) &&
      TestInfos.TestInfoFromDict(d, language).Ok? &&
      !TestInfos.IsTestable(TestInfos.TestInfoFromDict(d, language).value)
  {
  }
}
