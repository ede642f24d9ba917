/**
  Client runs following the end-to-end tests of test/index.test.ts, with every
  server answer written out. Each is proved from the contracts alone.
*/
module Scenarios {
  import opened Wrappers
  import opened Common
  import opened SharefileNodeApi
  import opened SharefileItems
  import UploadSpecifications

  /** No credentials, credentials with only a subdomain, and complete credentials. */
  method CredentialChecks()
  {
    var none := SharefileApi.New(None);
    assert none == Failure(AuthMissing);

    var onlySubdomain := SharefileAuth(Some("x"), None, None, None, None);
    var partial := SharefileApi.New(Some(onlySubdomain));
    assert partial.Failure?;
    ghost var i :| 0 <= i < |RequiredProps| && !Present(Field(onlySubdomain, RequiredProps[i]))
      && (forall j :: 0 <= j < i ==> Present(Field(onlySubdomain, RequiredProps[j])))
      && partial.error == PropRequired(PropName(RequiredProps[i]));
    assert i == 1 by {
      assert Present(Field(onlySubdomain, RequiredProps[0]));
      assert !Present(Field(onlySubdomain, RequiredProps[1]));
    }
    assert partial.error == PropRequired("username");

    var complete := SharefileAuth(Some("acme"), Some("id"), Some("secret"), Some("user"), Some("pw"));
    CompleteMeansAllFive(complete);
    var good := SharefileApi.New(Some(complete));
    assert good.Success?;
  }

  /**
    "Token refreshes after it expires": two configurations in a row carry the same
    header; 30000 ms later the token is expired and the next call logs in again.
  */
  method TokenRefresh()
  {
    var api := new SharefileApi(Credentials("acme", "id", "secret", "user", "pw"));
    var first := api.GetHttpConfig(1000, 1000, Success(SharefileLoginResponse("tokenA", 28800)));
    assert first == Success(Bearer("tokenA"));
    assert !api.IsTokenExpired(1000);

    var second := api.GetHttpConfig(1000, 1000, Success(SharefileLoginResponse("tokenB", 28800)));
    assert second == first;

    assert api.IsTokenExpired(31000);
    var third := api.GetHttpConfig(31000, 31000, Success(SharefileLoginResponse("tokenB", 28800)));
    assert third == Success(Bearer("tokenB"));
    assert ("Bearer " + "tokenB")[12] != ("Bearer " + "tokenA")[12];
    assert third != first;
  }

  /** "Renames a file", and a rename the server does not echo: the item keeps its name. */
  method Rename()
  {
    var created := SharefileItem.New(Some(map["url" := Scalar(Str("u")), "Name" := Scalar(Str("a.txt"))]),
                                      HttpConfig("Bearer t"));
    assert Lookup(map["url" := Scalar(Str("u")), "Name" := Scalar(Str("a.txt"))], "url") == Some(Scalar(Str("u")));
    var item := created.value;

    var echo := map["url" := Scalar(Str("u")), "Name" := Scalar(Str("b.txt"))];
    assert Lookup(echo, "Name") == Some(Scalar(Str("b.txt")));
    var renamed := item.RenameTo("b.txt", Success(echo));
    assert renamed == Success(item) && item.fields["Name"] == Scalar(Str("b.txt"));

    var before := item.fields;
    var refused := item.RenameTo("c:/.txt", Success(echo));
    assert refused == Failure(CouldNotUpdate("Name")) && item.fields == before;
  }

  /** "Moves a file": a move the server confirms leaves the new parent id on the item. */
  method Move()
  {
    var created := SharefileItem.New(Some(map["url" := Scalar(Str("u"))]), HttpConfig("Bearer t"));
    assert Lookup(map["url" := Scalar(Str("u"))], "url") == Some(Scalar(Str("u")));
    var item := created.value;

    var echo := map["url" := Scalar(Str("u")), "Parent" := Record(map["Id" := Str("to"), "url" := Str("p")])];
    assert InnerLookup(Lookup(echo, "Parent"), "Id") == Some(Str("to"));
    var moved := item.MoveTo("to", Success(echo));
    assert moved == Success(item);
    assert InnerLookup(Lookup(item.fields, "Parent"), "Id") == Some(Str("to"));
  }

  /** "Gets Child by Key": the one child of three with FileSizeBytes 20. */
  method ChildByFileSize()
  {
    var a := map["url" := Scalar(Str("a")), "FileSizeBytes" := Scalar(Num(7))];
    var b := map["url" := Scalar(Str("b")), "FileSizeBytes" := Scalar(Num(20)), "Name" := Scalar(Str("small.txt"))];
    var c := map["url" := Scalar(Str("c"))];
    assert Construct(Some(a)).Success? && Construct(Some(b)).Success? && Construct(Some(c)).Success? by {
      assert Lookup(a, "url") == Some(Scalar(Str("a")));
      assert Lookup(b, "url") == Some(Scalar(Str("b")));
      assert Lookup(c, "url") == Some(Scalar(Str("c")));
    }
    var listing := Success(ChildrenApiResponse([a, b, c]));
    var found := ChildBy(listing, "FileSizeBytes", Some(Scalar(Num(20))));
    var children := ConstructAll([a, b, c]).value;
    assert Lookup(children[0], "FileSizeBytes") == Some(Scalar(Num(7)));
    assert Lookup(children[1], "FileSizeBytes") == Some(Scalar(Num(20)));
    assert found == Success(Some(children[1]));
    assert Lookup(found.value.value, "Name") == Some(Scalar(Str("small.txt")));

    assert Lookup(children[2], "FileSizeBytes") == None;
    var missing := ChildBy(listing, "FileSizeBytes", Some(Scalar(Num(99))));
    assert missing == Success(None);
  }

  /** "Throws error when uploading with an incorrect method": nothing is sent. */
  method RawUploadRefused(encode: string -> seq<UploadSpecifications.byte>,
                          detect: seq<UploadSpecifications.byte> -> string)
  {
    var spec := UploadSpecifications.FromResponse(
      Some(UploadSpecifications.PrepareUploadApiResponse(Some("Raw"), Some("x"))));
    var submit := Success(UploadSpecifications.SubmitUploadApiResponse([], false));
    var request, r := UploadSpecifications.Upload(spec.value, UploadSpecifications.Text("Data"), encode, detect, submit);
    assert request == None && r == Failure(UnsupportedUploadMethod);
  }
}
