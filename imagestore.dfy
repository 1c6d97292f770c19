/** The types of the imagestore package as far as the server and the factory
    see them. The package's internals (the mapper's regular expression
    matching, Save, the backends' I/O) are not part of this model: a store is
    a value that records how it was configured. */
module ImageStore {

  /** The descriptor handed to and returned by Save (imagestore.StoreObject). */
  datatype StoreObject = StoreObject(name: string, mimeType: string, imageType: string, url: string)

  /** The configuration of a name-to-path mapper: the pattern that extracts a
      fragment of a name and the template that interpolates it. */
  datatype NamePathMapper = NamePathMapper(pattern: string, template: string)

  /** The environment credentials that the S3 client is built from. */
  datatype Auth = Auth(accessKey: string, secretKey: string)

  /** A store backend, as built by the factory. */
  datatype Store =
    | Local(root: string, mapper: NamePathMapper)
    | S3(bucket: string, root: string, region: string, auth: Auth, mapper: NamePathMapper)
}
