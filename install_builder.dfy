/**
 * The single-use install-proposal builder: fluent setters store the request,
 * and one terminal call either throws a ProposalException or fills in the
 * base builder's argument list, chaincode id, chaincode type and channel.
 * Each build method is proved against the functions of InstallSpec.
 */
module Builder {
  import opened Base
  import opened Files
  import opened InstallSpec

  class InstallProposalBuilder {
    var chaincodePath: Option<string>
    var chaincodeSource: Option<string>
    var chaincodeName: Option<string>
    var chaincodeVersion: Option<string>
    var chaincodeLanguage: Option<Language>

    // Fields of the base ProposalBuilder that this builder writes; None until written.
    var args: Option<seq<Bytes>>
    var chaincodeID: Option<ChaincodeId>
    var ccType: Option<CcType>
    var chainID: Option<string>

    /** The builder's own fields as one value. */
    function Request(): InstallRequest
      reads this
    {
      InstallRequest(chaincodePath, chaincodeSource, chaincodeName, chaincodeVersion, chaincodeLanguage)
    }

    /** newBuilder(): every field null. */
    constructor ()
      ensures Request() == InstallRequest(None, None, None, None, None)
      ensures args.None? && chaincodeID.None? && ccType.None? && chainID.None?
    {
      chaincodePath, chaincodeSource, chaincodeName, chaincodeVersion, chaincodeLanguage := None, None, None, None, None;
      args, chaincodeID, ccType, chainID := None, None, None, None;
    }

    method ChaincodePath(path: Option<string>) returns (b: InstallProposalBuilder)
      modifies this`chaincodePath
      ensures chaincodePath == path && b == this
    {
      chaincodePath := path;
      b := this;
    }

    method ChaincodeName(name: Option<string>) returns (b: InstallProposalBuilder)
      modifies this`chaincodeName
      ensures chaincodeName == name && b == this
    {
      chaincodeName := name;
      b := this;
    }

    method SetChaincodeSource(source: Option<string>) returns (b: InstallProposalBuilder)
      modifies this`chaincodeSource
      ensures chaincodeSource == source && b == this
    {
      chaincodeSource := source;
      b := this;
    }

    method SetChaincodeLanguage(language: Option<Language>)
      modifies this`chaincodeLanguage
      ensures chaincodeLanguage == language
    {
      chaincodeLanguage := language;
    }

    method ChaincodeVersion(version: Option<string>)
      modifies this`chaincodeVersion
      ensures chaincodeVersion == version
    {
      chaincodeVersion := version;
    }

    /**
     * constructInstallProposal: dispatch on the mode and wrap whatever was
     * thrown in a ProposalException. A failed build leaves the base builder's
     * fields as they were; only the chaincodeSource written back during the
     * language switch survives it.
     */
    method ConstructInstallProposal(devMode: bool, fs: FileSystem, col: Collaborators)
      returns (failure: Option<ProposalException>)
      modifies this`chaincodeSource, this`args, this`chaincodeID, this`ccType, this`chainID, fs
      ensures devMode ==>
                failure.None? && Request() == old(Request()) && fs.state == old(fs.state) &&
                args == Some(DevModeArgs(old(Request()), col)) && chaincodeID == Some(ChaincodeId(LCCC_CHAIN_NAME)) &&
                ccType == old(ccType) && chainID == old(chainID)
      ensures !devMode ==>
                var n := NetModeSpec(old(Request()), old(fs.state), col);
                chaincodeSource == n.source && fs.state == n.fs &&
                (n.outcome.Failure? ==>
                   failure == Some(ProposalException(ProposalFailureMessage, n.outcome.error)) &&
                   args == old(args) && chaincodeID == old(chaincodeID) && ccType == old(ccType) && chainID == old(chainID)) &&
                (n.outcome.Success? ==>
                   failure.None? && args == Some(n.outcome.value.args) && chaincodeID == Some(ChaincodeId(LCCC_CHAIN_NAME)) &&
                   ccType == Some(n.outcome.value.ccType) && chainID == Some(""))
    {
      if devMode {
        CreateDevModeTransaction(col);
        failure := None;
      } else {
        var outcome := CreateNetModeTransaction(fs, col);
        failure := if outcome.Fail? then Some(ProposalException(ProposalFailureMessage, outcome.error)) else None;
      }
    }

    /** createNetModeTransaction, step by step, ending exactly where NetModeSpec says. */
    method CreateNetModeTransaction(fs: FileSystem, col: Collaborators) returns (outcome: Outcome<Exception>)
      modifies this`chaincodeSource, this`args, this`chaincodeID, this`ccType, this`chainID, fs
      ensures var n := NetModeSpec(old(Request()), old(fs.state), col);
              chaincodeSource == n.source && fs.state == n.fs &&
              (n.outcome.Failure? ==>
                 outcome == Fail(n.outcome.error) &&
                 args == old(args) && chaincodeID == old(chaincodeID) && ccType == old(ccType) && chainID == old(chainID)) &&
              (n.outcome.Success? ==>
                 outcome == Pass && args == Some(n.outcome.value.args) && chaincodeID == Some(ChaincodeId(LCCC_CHAIN_NAME)) &&
                 ccType == Some(n.outcome.value.ccType) && chainID == Some(""))
    {
      if IsNullOrEmpty(chaincodePath) {
        return Fail(IllegalArgument(MissingPathMessage));
      }
      var path := chaincodePath.value;

      var resolvedType: CcType;
      var projectSourceDir: string;
      var targetPathPrefix: string;
      match chaincodeLanguage {
      case None =>
        return Fail(NullPointer);
      case Some(GoLang) =>
        resolvedType := GOLANG;
        if chaincodeSource.None? {
          chaincodeSource := col.gopath;
        }
        if IsNullOrEmpty(chaincodeSource) {
          return Fail(IllegalArgument(MissingGoSourceMessage));
        }
        projectSourceDir := col.getPath(chaincodeSource.value, ["src", path]);
        targetPathPrefix := col.combinePaths("src", path);
      case Some(Java) =>
        resolvedType := JAVA;
        targetPathPrefix := "src";
        if IsNullOrEmpty(chaincodeSource) {
          chaincodeSource := Some(WorkingDirectory(col));
        }
        projectSourceDir := col.getPath(chaincodeSource.value, [path]);
        // no break: control falls into the default case
        return Fail(IllegalArgument(UnexpectedLanguageMessage(chaincodeLanguage)));
      }

      if !Exists(fs.state, projectSourceDir) {
        return Fail(IllegalArgument(NotFoundMessage + col.toAbsolutePath(projectSourceDir)));
      }
      if !IsDirectory(fs.state, projectSourceDir) {
        return Fail(IllegalArgument(NotDirectoryMessage + col.toAbsolutePath(projectSourceDir)));
      }

      var dockerFileContents: Option<string>;
      match DockerFileContents(chaincodeLanguage, chaincodeLanguage, col) {
      case Failure(e) =>
        return Fail(e);
      case Success(contents) =>
        dockerFileContents := contents;
      }
      var depspec := PackageSource(fs, projectSourceDir, targetPathPrefix, dockerFileContents, resolvedType, col);
      if depspec.Failure? {
        return Fail(depspec.error);
      }

      args := Some(InstallArgs(col.encode(depspec.value)));
      chaincodeID := Some(ChaincodeId(LCCC_CHAIN_NAME));
      ccType := Some(resolvedType);
      chainID := Some("");  // installing is not targeted at a channel
      outcome := Pass;
    }

    /**
     * The try/finally block of createNetModeTransaction: write the Dockerfile
     * when there is one, package the directory, build the deployment spec,
     * and delete the Dockerfile's path on the way out, thrown or not.
     */
    method PackageSource(fs: FileSystem, dir: string, prefix: string, dockerFileContents: Option<string>,
                         resolvedType: CcType, col: Collaborators)
      returns (depspec: Result<DeploymentSpec, Exception>)
      modifies fs
      ensures var p := PackageSpec(old(fs.state), dir, prefix, dockerFileContents, Request(), resolvedType, col);
              fs.state == p.fs && depspec == p.depspec
    {
      var dockerFilePath: Option<string> := None;
      var thrown: Option<Exception> := None;
      if dockerFileContents.Some? {
        var contents := col.format(dockerFileContents.value, chaincodeName);
        dockerFilePath := Some(DockerFilePath(dir, col));
        var written := fs.Write(dockerFilePath.value, contents);
        if written.Fail? {
          thrown := Some(written.error);
        }
      }
      if thrown.None? {
        var data := col.generateTarGz(fs.state, dir, prefix);
        if data.Failure? {
          thrown := Some(data.error);
        } else {
          depspec := Success(DeploymentSpec(resolvedType, chaincodeName, chaincodePath, chaincodeVersion, Some(data.value)));
        }
      }
      // finally
      if dockerFilePath.Some? {
        fs.DeleteFileOrDirectory(dockerFilePath.value);
      }
      if thrown.Some? {
        depspec := Failure(thrown.value);
      }
    }

    /** createDevModeTransaction: no validation; only the argument list and the target chaincode id are set. */
    method CreateDevModeTransaction(col: Collaborators)
      modifies this`args, this`chaincodeID
      ensures args == Some(DevModeArgs(Request(), col))
      ensures chaincodeID == Some(ChaincodeId(LCCC_CHAIN_NAME))
    {
      var depspec := DeploymentSpec(GOLANG, chaincodeName, None, None, None);
      args := Some(InstallArgs(col.encode(depspec)));
      chaincodeID := Some(ChaincodeId(LCCC_CHAIN_NAME));
    }
  }
}
