/** The parsed form of one OpenAPI YAML file (`OpenAPIFileNode`): its path
    and the nodes extracted from its top-level keys, in extraction order. */
module OpenApiFile {
  import opened Wrappers
  import opened YamlModel
  import opened SchemaNodes
  import opened OperationNodes

  datatype MetadataNode = MetadataNode(openapi: string)

  datatype Contact = Contact(name: string, url: string, email: string)

  datatype InfoNode = InfoNode(title: string, version: string, contact: Contact, termsOfService: string)

  datatype ServerNode = ServerNode(url: string, description: string)

  /** A tag; its external documentation link is not part of the model. */
  datatype TagNode = TagNode(name: string, description: string)

  /** One entry of `paths`: a route and the file that describes it. */
  datatype PathNode = PathNode(path: string, refFilePath: string)

  datatype ExampleNode = ExampleNode(yaml: Yaml)

  datatype OpenApiNode =
    | Metadata(metadata: MetadataNode)
    | Info(info: InfoNode)
    | Servers(servers: seq<ServerNode>)
    | Tags(tags: seq<TagNode>)
    | Paths(paths: seq<PathNode>)
    | Operation(operation: OperationNode)
    | DataModel(model: DataModelNode)
    | Parameters(parameters: seq<ParameterNode>)
    | Example(example: ExampleNode)
    | Unknown(rest: Mapping)

  datatype FileNode = FileNode(path: string, contents: seq<OpenApiNode>)
}
