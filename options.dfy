/**
 * Options a blob client may be configured with, and the builder that produces
 * them. The generic pipeline options are opaque here: a type parameter `C`
 * whose default value the caller supplies.
 */
module Options {
  import opened Wrappers

  const DefaultApiVersion := "2023-11-03"

  datatype BlobClientOptions<C> = BlobClientOptions(apiVersion: Option<string>, clientOptions: C)

  /** The default options: the default API version and the default pipeline options. */
  function Default<C>(defaultClientOptions: C): (o: BlobClientOptions<C>)
    ensures o.apiVersion == Some("2023-11-03")
    ensures o.clientOptions == defaultClientOptions
  {
    BlobClientOptions(Some(DefaultApiVersion), defaultClientOptions)
  }

  /** Builds options by overriding the defaults one field at a time. */
  class BlobClientOptionsBuilder<C> {
    var options: BlobClientOptions<C>

    /** A builder holding exactly the default options. */
    constructor (defaultClientOptions: C)
      ensures options == Default(defaultClientOptions)
    {
      options := Default(defaultClientOptions);
    }

    /** Sets the API version; the pipeline options are kept. Returns this builder. */
    method WithApiVersion(apiVersion: string) returns (builder: BlobClientOptionsBuilder<C>)
      modifies this
      ensures builder == this
      ensures options == BlobClientOptions(Some(apiVersion), old(options).clientOptions)
    {
      options := options.(apiVersion := Some(apiVersion));
      builder := this;
    }

    /** Sets the pipeline options; the API version is kept. Returns this builder. */
    method WithClientOptions(clientOptions: C) returns (builder: BlobClientOptionsBuilder<C>)
      modifies this
      ensures builder == this
      ensures options == BlobClientOptions(old(options).apiVersion, clientOptions)
    {
      options := options.(clientOptions := clientOptions);
      builder := this;
    }

    /** A copy of the options built so far; the builder is left as it was. */
    method Build() returns (o: BlobClientOptions<C>)
      ensures o == options
    {
      o := options;
    }
  }

  /** A fresh builder, starting from the default options. */
  method Builder<C>(defaultClientOptions: C) returns (b: BlobClientOptionsBuilder<C>)
    ensures fresh(b)
    ensures b.options == Default(defaultClientOptions)
  {
    b := new BlobClientOptionsBuilder(defaultClientOptions);
  }

  /**
   * Setting the version and then the pipeline options and building yields
   * exactly those two values, whatever the defaults were.
   */
  method BuildWithVersionAndClientOptions<C>(defaultClientOptions: C, apiVersion: string, clientOptions: C)
    returns (o: BlobClientOptions<C>)
    ensures o.apiVersion == Some(apiVersion)
    ensures o.clientOptions == clientOptions
  {
    var b := Builder(defaultClientOptions);
    b := b.WithApiVersion(apiVersion);
    b := b.WithClientOptions(clientOptions);
    o := b.Build();
  }

  /** When the version is set twice, the later one is the one built; building twice gives equal copies. */
  method BuildWithVersionTwice<C>(defaultClientOptions: C, first: string, second: string)
    returns (o: BlobClientOptions<C>, again: BlobClientOptions<C>)
    ensures o == BlobClientOptions(Some(second), defaultClientOptions)
    ensures again == o
  {
    var b := Builder(defaultClientOptions);
    b := b.WithApiVersion(first);
    b := b.WithApiVersion(second);
    o := b.Build();
    again := b.Build();
  }
}
