# Install-proposal builder of the Hyperledger Fabric Java SDK, in Dafny

This project models `InstallProposalBuilder`, the single-use builder that turns a
request to install chaincode into the arguments of an install proposal. Fluent
setters store the chaincode path, name, source root, version and language. The
terminal call `constructInstallProposal` then does one of two things:

- in development mode, it encodes a GOLANG deployment spec that carries only the
  chaincode name;
- in network mode, it validates the path, resolves the source layout for the
  language, checks the source directory, packages it (writing and deleting a
  Dockerfile when the language needs one) and encodes the deployment spec.

On success it sets the base builder's argument list to `["install", depspec]`,
its target chaincode id to `lccc` and, in network mode, its chaincode type and
an empty channel id. Every failure reaches the caller wrapped in a
`ProposalException`, and none of those four fields is set.

Files:

- `base.dfy` (module `Base`): Java nulls as `Option`, results and outcomes, bytes,
  the exceptions, `IsNullOrEmpty`.
- `ascii.dfy` (module `Ascii`): the UTF-8 bytes of the `"install"` literal.
- `files.dfy` (module `Files`): the filesystem as a map of regular files and a set
  of directories. The Dockerfile write and the recursive delete are pure
  functions, and the class `FileSystem` holds the mutable state.
- `install_spec.dfy` (module `InstallSpec`): the decisions of a build as pure
  functions. They cover the language switch, the Dockerfile template, the
  try/finally packaging block, the whole network-mode build and the
  development-mode arguments.
- `install_builder.dfy` (module `Builder`): the class `InstallProposalBuilder`
  with the builder's fields, the setters and the build methods. Each build method
  is proved to end in exactly the state its `InstallSpec` function describes.

The environment is passed in as a `Collaborators` value of function values:
- the `GOPATH` variable;
- `Paths.get`, `Path.resolve` and `toAbsolutePath`;
- `SDKUtil.combinePaths` and `SDKUtil.generateTarGz`;
- the `Java.Docker` classpath template and `String.format`;
- the protobuf encoder.

The model assumes nothing about these beyond their types. The development/network
mode flag, which the source reads from the base builder's context, is a parameter.

The model follows the code as written. Two of its consequences stand out:
- The `JAVA` case of the language switch has no `break`, so it falls into
  `default` and every network-mode Java build fails with "Unexpected chaincode
  language: JAVA". Before that, an empty source root is replaced by the working
  directory, and that replacement stays in the builder. The branch computes
  `source/path` with prefix `src`, but never uses them, and the JAVA branch of
  `getDockerFileContents` can never be reached: the code evidently meant the
  Java case to resolve on its own.
- A null language fails at the `switch` with a `NullPointerException`, not with
  a message about the language.

A consequence of the fall-through is that a network-mode build never leaves the
filesystem changed (`NetModeSpec` ensures `r.fs == fs`), since only GO_LANG gets
past the switch and GO_LANG uses no Dockerfile. The packaging block is still
modelled for any template. `PackageSpec` states that the Dockerfile's path is
gone on every exit. It also states that the filesystem is restored exactly when
nothing stood at that path before.

## Model

| member | source | states |
|---|---|---|
| `Ascii.EncodeAscii` | src/main/java/org/hyperledger/fabric/sdk/transaction/InstallProposalBuilder.java:196 | the command token's UTF-8 bytes: one byte per character, each equal to its code point and below 128 |
| `Files.Written` | src/main/java/org/hyperledger/fabric/sdk/transaction/InstallProposalBuilder.java:178 | writing the Dockerfile fails exactly when its path is a directory; otherwise only that file's contents change |
| `Files.Deleted` | src/main/java/org/hyperledger/fabric/sdk/transaction/InstallProposalBuilder.java:190-191 | after the delete the path is gone, and an entry remains iff it existed and is neither the path nor beneath it, with unchanged contents |
| `Files.WriteThenDeleteRestores` | src/main/java/org/hyperledger/fabric/sdk/transaction/InstallProposalBuilder.java:177-191 | on a well-formed filesystem where nothing stood at the path, the write succeeds and the write-then-delete leaves the filesystem exactly as it was |
| `Files.FileSystem.Write` | src/main/java/org/hyperledger/fabric/sdk/transaction/InstallProposalBuilder.java:178 | the mutable filesystem takes the written state, or stays unchanged and the write throws |
| `Files.FileSystem.DeleteFileOrDirectory` | src/main/java/org/hyperledger/fabric/sdk/transaction/InstallProposalBuilder.java:191 | the mutable filesystem takes the deleted state and the path no longer exists |
| `InstallSpec.ResolveLayout` | src/main/java/org/hyperledger/fabric/sdk/transaction/InstallProposalBuilder.java:127-152 | the switch succeeds iff the language is GO_LANG and the source root (GOPATH when none was set) is non-empty. The directory is then `getPath(source, ["src", path])` and the prefix `combinePaths("src", path)`, with type GOLANG. JAVA always fails with the unexpected-language message, after an empty source root becomes the working directory. A null language throws NullPointerException and leaves the source root alone |
| `InstallSpec.DockerFileContents` | src/main/java/org/hyperledger/fabric/sdk/transaction/InstallProposalBuilder.java:228-236 | a template is returned iff the field's language is JAVA and the template loads. GO_LANG gets no Dockerfile. A failed load propagates, and a null language is refused with "Unknown chaincode language" |
| `InstallSpec.PackageSpec` | src/main/java/org/hyperledger/fabric/sdk/transaction/InstallProposalBuilder.java:166-192 | without a template the filesystem is untouched. With one, the Dockerfile path is gone on every exit, every entry outside that path keeps its kind and contents, and the filesystem is restored when that path was free before; a Dockerfile already at that path is overwritten and then deleted, and a directory there is deleted with its contents. Packaging runs on the filesystem that holds the formatted Dockerfile. When the write fails because a directory stands at that path, the build fails with the write's own exception. A deployment spec carries the type, name, path, version and a code package |
| `InstallSpec.NetModeSpec` | src/main/java/org/hyperledger/fabric/sdk/transaction/InstallProposalBuilder.java:115-206 | an empty path fails first, with source root and filesystem unchanged. The source root ends as the switch left it, a failed switch (missing GOPATH, JAVA, null language) is the build's failure, and the filesystem is never changed. The build succeeds iff the language is GO_LANG, the path and resolved source root are non-empty, `source/src/path` is a directory and packaging it under prefix `combinePaths("src", path)` succeeds. A failed packaging of that directory is the build's failure, with the packager's own exception. Then the type is GOLANG and args are exactly `["install", encode(spec of GOLANG, name, path, version, that tarball)]` |
| `InstallSpec.InstallArgs` | src/main/java/org/hyperledger/fabric/sdk/transaction/InstallProposalBuilder.java:195-197 | the argument list has two elements: the bytes spelling "install", then the serialised deployment spec |
| `InstallSpec.Package` | src/main/java/org/hyperledger/fabric/sdk/transaction/InstallProposalBuilder.java:184-188 | the deployment spec exists iff packaging succeeds, and then carries the type, name, path, version and the tarball; a packaging failure is passed on unchanged |
| `InstallSpec.SourceDirectoryChecked` | src/main/java/org/hyperledger/fabric/sdk/transaction/InstallProposalBuilder.java:154-163 | a resolved directory that does not exist, or is not a directory, fails the build with the matching message followed by its absolute path |
| `InstallSpec.DevModeArgs` | src/main/java/org/hyperledger/fabric/sdk/transaction/InstallProposalBuilder.java:213-220 | the development-mode arguments have the install shape, with a GOLANG deployment spec carrying the name and no path, version or code package as payload |
| `InstallSpec.DevModeDependsOnNameOnly` | src/main/java/org/hyperledger/fabric/sdk/transaction/InstallProposalBuilder.java:209-225 | development-mode arguments are `["install", …]` and depend on the chaincode name alone, not on the path, source root, version or language |
| `Builder.InstallProposalBuilder.constructor` | src/main/java/org/hyperledger/fabric/sdk/transaction/InstallProposalBuilder.java:56-64 | a new builder has every field null |
| `Builder.InstallProposalBuilder.ChaincodePath` | src/main/java/org/hyperledger/fabric/sdk/transaction/InstallProposalBuilder.java:67-73 | sets the path, changes no other field, returns the builder itself |
| `Builder.InstallProposalBuilder.ChaincodeName` | src/main/java/org/hyperledger/fabric/sdk/transaction/InstallProposalBuilder.java:75-81 | sets the name, changes no other field, returns the builder itself |
| `Builder.InstallProposalBuilder.SetChaincodeSource` | src/main/java/org/hyperledger/fabric/sdk/transaction/InstallProposalBuilder.java:84-88 | sets the source root, changes no other field, returns the builder itself |
| `Builder.InstallProposalBuilder.SetChaincodeLanguage` | src/main/java/org/hyperledger/fabric/sdk/transaction/InstallProposalBuilder.java:239-241 | sets the language and changes no other field |
| `Builder.InstallProposalBuilder.ChaincodeVersion` | src/main/java/org/hyperledger/fabric/sdk/transaction/InstallProposalBuilder.java:244-246 | sets the version and changes no other field |
| `Builder.InstallProposalBuilder.ConstructInstallProposal` | src/main/java/org/hyperledger/fabric/sdk/transaction/InstallProposalBuilder.java:98-113 | development mode always succeeds: it sets args and `lccc`, and leaves the request, filesystem, type and channel alone. Network mode ends in `NetModeSpec`'s state. Its failure comes back as a ProposalException wrapping the cause with args, id, type and channel untouched; its success sets all four |
| `Builder.InstallProposalBuilder.CreateNetModeTransaction` | src/main/java/org/hyperledger/fabric/sdk/transaction/InstallProposalBuilder.java:115-206 | the builder's source root and the filesystem end as `NetModeSpec` says. The four output fields are written only on success, as args, `lccc`, the resolved type and `""` |
| `Builder.InstallProposalBuilder.PackageSource` | src/main/java/org/hyperledger/fabric/sdk/transaction/InstallProposalBuilder.java:166-192 | the try/finally block ends with the filesystem and deployment spec of `PackageSpec` |
| `Builder.InstallProposalBuilder.CreateDevModeTransaction` | src/main/java/org/hyperledger/fabric/sdk/transaction/InstallProposalBuilder.java:209-225 | sets only args, to the development-mode arguments, and the target id `lccc` |

## Left out

- `build()` and the base `ProposalBuilder` it calls (`super.build()`, headers, signing) are not part of this model.
- Logging has no effect on the builder's behaviour and is not modelled.
- The initial values of the base builder's fields are not part of this model. Here they start as None, meaning "not written by this builder".
- Path normalisation by `Paths.get`, `toAbsolutePath`, `combinePaths`, tar/gzip packaging, `String.format`, the classpath template and protobuf encoding are opaque function values. Their internals and any exception they throw are not modelled, except for the modelled failures of the packager and the template load.
- `Files.Written`: the write fails only when the Dockerfile's path is a directory. Permission errors and missing parent directories are not modelled.
- The Dockerfile's contents are kept as a string. The platform-charset conversion of `getBytes()` is not modelled.
- `SDKUtil.deleteFileOrDirectory` is modelled as always succeeding. An exception thrown from the `finally` block, which in Java would replace the exception in flight, is not modelled.
- `Ascii.EncodeAscii`: covers ASCII strings only, because the one string the builder encodes is the literal `install`.
- Reusing the builder after a build, or using it from several threads, is neither prevented nor modelled. The source does not prevent it either.
