/**
  SharefileItem of src/models/sharefile-item.ts: an item snapshot built from a JSON
  payload, navigation over its children, and the verify-then-merge `update`.
*/
module SharefileItems {
  import opened Wrappers
  import opened Common
  import UploadSpecifications

  /** A JSON scalar. */
  datatype Scalar = Str(s: string) | Num(n: int) | Bool(b: bool) | Null

  /** A JSON value one level deep: a scalar, or an object of scalars (such as `Parent`). */
  datatype Value = Scalar(scalar: Scalar) | Record(fields: map<string, Scalar>)

  /** A JSON object: an item payload, or the properties of an item. */
  type Payload = map<string, Value>

  /** One top-level key of an update request, in `Object.keys` order. */
  datatype Entry = Entry(key: string, value: Value)

  /** The children listing; only its `value` array is read. */
  datatype ChildrenApiResponse = ChildrenApiResponse(value: seq<Payload>)

  /** Property access `p[k]`: None is `undefined`. */
  function Lookup(p: Payload, k: string): Option<Value>
  {
    if k in p then Some(p[k]) else None
  }

  /** JavaScript truthiness of an optional value. */
  predicate Truthy(v: Option<Value>)
  {
    match v
    case None => false
    case Some(Record(_)) => true
    case Some(Scalar(Str(s))) => s != ""
    case Some(Scalar(Num(n))) => n != 0
    case Some(Scalar(Bool(b))) => b
    case Some(Scalar(Null)) => false
  }

  /** The properties the constructor copies out of a payload. */
  const ItemKeys: set<string> := {
    "Id", "url", "odata.metadata", "odata.type",
    "Name", "FileName", "Parent", "Description", "FileCount", "Info", "Hash",
    "CreationDate", "ProgenyEditDate", "ClientCreatedDate", "ClientModifiedDate",
    "ExpirationDate", "ExpirationDays", "DiskSpaceLimit", "BandwidthLimitInMB",
    "FileSizeInKB", "FileSizeBytes", "Path", "CreatorFirstName", "CreatorLastName",
    "CreatorNameShort", "IsHidden", "HasPendingDeletion", "HasPermissionInfo",
    "HasMultipleVersions", "HasPendingAsyncOp", "State", "VirusStatus", "PreviewStatus",
    "StreamID", "AssociatedFolderTemplateID", "IsTemplateOwned"
  }

  /**
    The constructor's checks and copy: an absent payload, then a payload whose `url`
    is falsy, are rejected; otherwise the item carries exactly the declared
    properties the payload has, with their values.
  */
  function Construct(data: Option<Payload>): (r: Result<Payload, Error>)
    ensures data.None? ==> r == Failure(EmptyItemResponse)
    ensures data.Some? ==> (r.Success? <==> Truthy(Lookup(data.value, "url")))
    ensures data.Some? && r.Failure? ==> r.error == ItemUrlNotFound
    ensures r.Success? ==>
      && r.value.Keys == data.value.Keys * ItemKeys
      && (forall k :: k in r.value ==> r.value[k] == data.value[k])
      && Truthy(Lookup(r.value, "url"))
  {
    match data
    case None => Failure(EmptyItemResponse)
    case Some(d) =>
      if !Truthy(Lookup(d, "url")) then Failure(ItemUrlNotFound)
      else Success(map k | k in d && k in ItemKeys :: d[k])
  }

  /** Constructing an item from an item's own properties gives the same properties. */
  lemma ConstructIdempotent(data: Payload)
    requires Construct(Some(data)).Success?
    ensures Construct(Some(Construct(Some(data)).value)) == Construct(Some(data))
  {
    var once := Construct(Some(data)).value;
    assert Construct(Some(once)).Success?;
    var twice := Construct(Some(once)).value;
    assert twice.Keys == once.Keys;
    assert forall k :: k in twice ==> twice[k] == once[k];
    assert twice == once;
  }

  /** `new SharefileItem({url: ''})` is rejected. */
  lemma EmptyUrlIsRejected()
    ensures Construct(Some(map["url" := Scalar(Str(""))])) == Failure(ItemUrlNotFound)
  {
  }

  /**
    `children()`: every item of the listing is constructed, in server order; the
    first one that fails construction makes the whole listing fail.
  */
  function ConstructAll(items: seq<Payload>): (r: Result<seq<Payload>, Error>)
    ensures r.Success? <==> forall i :: 0 <= i < |items| ==> Construct(Some(items[i])).Success?
    ensures r.Failure? ==> r.error == ItemUrlNotFound
    ensures r.Success? ==>
      |r.value| == |items| && forall i :: 0 <= i < |items| ==> r.value[i] == Construct(Some(items[i])).value
    decreases |items|
  {
    if items == [] then Success([])
    else
      match Construct(Some(items[0]))
      case Failure(e) => Failure(e)
      case Success(first) =>
        match ConstructAll(items[1..])
        case Failure(e) => Failure(e)
        case Success(rest) => Success([first] + rest)
  }

  /**
    Strict equality `===` of two property values. Objects compare by identity, and a
    freshly decoded object is identical to nothing the caller holds, so a record
    never matches.
  */
  predicate StrictEquals(a: Option<Value>, b: Option<Value>)
  {
    match (a, b)
    case (None, None) => true
    case (Some(Scalar(x)), Some(Scalar(y))) => x == y
    case _ => false
  }

  /** The position of the first child whose property `key` is strictly equal to `val`. */
  function FindChild(children: seq<Payload>, key: string, val: Option<Value>): (r: Option<nat>)
    ensures r.Some? ==>
      && r.value < |children|
      && StrictEquals(Lookup(children[r.value], key), val)
      && forall j :: 0 <= j < r.value ==> !StrictEquals(Lookup(children[j], key), val)
    ensures r.None? ==> forall j :: 0 <= j < |children| ==> !StrictEquals(Lookup(children[j], key), val)
    decreases |children|
  {
    if children == [] then None
    else if StrictEquals(Lookup(children[0], key), val) then Some(0)
    else
      match FindChild(children[1..], key, val)
      case None => None
      case Some(i) => Some(i + 1)
  }

  /**
    `childBy(key, val)`: fetch the children, then return the first in server order
    whose `key` property is strictly equal to `val`, or None when none is.
  */
  function ChildBy(response: Result<ChildrenApiResponse, Error>, key: string, val: Option<Value>)
    : (r: Result<Option<Payload>, Error>)
    ensures response.Failure? ==> r == Failure(response.error)
    ensures response.Success? ==> (r.Success? <==> ConstructAll(response.value.value).Success?)
    ensures response.Success? && r.Failure? ==> r.error == ItemUrlNotFound
    ensures r.Success? && r.value.Some? ==>
      var children := ConstructAll(response.value.value).value;
      exists i :: 0 <= i < |children| && children[i] == r.value.value
        && StrictEquals(Lookup(children[i], key), val)
        && forall j :: 0 <= j < i ==> !StrictEquals(Lookup(children[j], key), val)
    ensures r.Success? && r.value.None? ==>
      var children := ConstructAll(response.value.value).value;
      forall j :: 0 <= j < |children| ==> !StrictEquals(Lookup(children[j], key), val)
  {
    match response
    case Failure(e) => Failure(e)
    case Success(listing) =>
      match ConstructAll(listing.value)
      case Failure(e) => Failure(e)
      case Success(children) =>
        match FindChild(children, key, val)
        case None => Success(None)
        case Some(i) => Success(Some(children[i]))
  }

  /** `childByName(name)`: the first child named `name`; the same search as `childBy('Name', name)`. */
  function ChildByName(response: Result<ChildrenApiResponse, Error>, name: string)
    : (r: Result<Option<Payload>, Error>)
    ensures r == ChildBy(response, "Name", Some(Scalar(Str(name))))
    ensures r.Success? && r.value.Some? ==> Lookup(r.value.value, "Name") == Some(Scalar(Str(name)))
  {
    var r := ChildBy(response, "Name", Some(Scalar(Str(name))));
    assert r.Success? && r.value.Some? ==> StrictEquals(Lookup(r.value.value, "Name"), Some(Scalar(Str(name))));
    r
  }

  /** `childById(id)`: the first child with `Id` equal to `id`; the same search as `childBy('Id', id)`. */
  function ChildById(response: Result<ChildrenApiResponse, Error>, id: string)
    : (r: Result<Option<Payload>, Error>)
    ensures r == ChildBy(response, "Id", Some(Scalar(Str(id))))
    ensures r.Success? && r.value.Some? ==> Lookup(r.value.value, "Id") == Some(Scalar(Str(id)))
  {
    var r := ChildBy(response, "Id", Some(Scalar(Str(id))));
    assert r.Success? && r.value.Some? ==> StrictEquals(Lookup(r.value.value, "Id"), Some(Scalar(Str(id))));
    r
  }

  /** `updatedValue?.[innerKey]`: an inner property of the response's value, if it is an object. */
  function InnerLookup(updated: Option<Value>, j: string): Option<Scalar>
  {
    if updated.Some? && updated.value.Record? && j in updated.value.fields
    then Some(updated.value.fields[j]) else None
  }

  /**
    The response confirms one request entry: a scalar is echoed exactly; for an
    object, each of its inner properties is echoed inside the response's object
    (inner properties only the response has do not matter).
  */
  predicate Confirms(response: Payload, e: Entry)
  {
    match e.value
    case Scalar(x) => Lookup(response, e.key) == Some(Scalar(x))
    case Record(inner) =>
      forall j :: j in inner ==> InnerLookup(Lookup(response, e.key), j) == Some(inner[j])
  }

  /** The error the check of one entry throws, if any. A null value throws before any comparison. */
  function EntryError(response: Payload, e: Entry): Option<Error>
  {
    if e.value == Scalar(Null) then Some(NotAnObject(e.key))
    else if Confirms(response, e) then None
    else Some(CouldNotUpdate(e.key))
  }

  /**
    The verification `update` runs over the request's keys in order: it passes
    exactly when every entry is confirmed, and otherwise throws the error of the
    first entry that is not.
  */
  function Verify(request: seq<Entry>, response: Payload): (r: Option<Error>)
    ensures r.None? <==> forall i :: 0 <= i < |request| ==> EntryError(response, request[i]).None?
    ensures r.Some? ==>
      exists i :: 0 <= i < |request| && r == EntryError(response, request[i])
        && forall t :: 0 <= t < i ==> EntryError(response, request[t]).None?
    decreases |request|
  {
    if request == [] then None
    else if EntryError(response, request[0]).Some? then EntryError(response, request[0])
    else Verify(request[1..], response)
  }

  /** `Object.assign(item, response)`: the response's properties overwrite, the others stay. */
  function Merge(fields: Payload, response: Payload): (r: Payload)
    ensures r.Keys == fields.Keys + response.Keys
    ensures forall k :: k in response ==> r[k] == response[k]
    ensures forall k :: k in fields && k !in response ==> r[k] == fields[k]
  {
    fields + response
  }

  /** After a verified update, the item shows every requested value. */
  lemma VerifiedUpdateShowsRequest(fields: Payload, request: seq<Entry>, response: Payload)
    requires Verify(request, response).None?
    ensures forall i :: 0 <= i < |request| ==> Confirms(Merge(fields, response), request[i])
  {
  }

  /** Properties the request does not mention have no say in the verdict. */
  lemma {:induction false} UnrequestedKeysIgnored(request: seq<Entry>, response: Payload, k: string, v: Value)
    requires forall i :: 0 <= i < |request| ==> request[i].key != k
    ensures Verify(request, response[k := v]) == Verify(request, response)
    decreases |request|
  {
    if request != [] {
      var e := request[0];
      assert Lookup(response[k := v], e.key) == Lookup(response, e.key);
      assert Confirms(response[k := v], e) == Confirms(response, e);
      UnrequestedKeysIgnored(request[1..], response, k, v);
    }
  }

  /** `renameTo(name)` sends `{Name: name}`. */
  function RenameRequest(name: string): seq<Entry>
  {
    [Entry("Name", Scalar(Str(name)))]
  }

  /** `moveTo(parentId)` sends `{Parent: {Id: parentId}}`. */
  function MoveRequest(parentId: string): seq<Entry>
  {
    [Entry("Parent", Record(map["Id" := Str(parentId)]))]
  }

  /** A rename is verified exactly when the response carries the new name. */
  lemma RenameVerdict(name: string, response: Payload)
    ensures Verify(RenameRequest(name), response) ==
      if Lookup(response, "Name") == Some(Scalar(Str(name))) then None else Some(CouldNotUpdate("Name"))
  {
  }

  /** A move is verified exactly when the response's `Parent` object carries the new parent id. */
  lemma MoveVerdict(parentId: string, response: Payload)
    ensures Verify(MoveRequest(parentId), response) ==
      if InnerLookup(Lookup(response, "Parent"), "Id") == Some(Str(parentId)) then None
      else Some(CouldNotUpdate("Parent"))
  {
  }

  /** An item: its properties, and the request configuration bound when it was built. */
  class SharefileItem {
    var fields: Payload
    const httpConfig: HttpConfig

    /** The successful constructor; `New` models the rejected payloads. */
    constructor (data: Payload, config: HttpConfig)
      requires Construct(Some(data)).Success?
      ensures fields == Construct(Some(data)).value && httpConfig == config
    {
      fields := Construct(Some(data)).value;
      httpConfig := config;
    }

    /** `new SharefileItem(data, config)`, which throws on a rejected payload. */
    static method New(data: Option<Payload>, config: HttpConfig) returns (r: Result<SharefileItem, Error>)
      ensures Construct(data).Failure? ==> r == Failure(Construct(data).error)
      ensures Construct(data).Success? ==>
        r.Success? && fresh(r.value) && r.value.fields == Construct(data).value && r.value.httpConfig == config
    {
      match Construct(data) {
        case Failure(e) => r := Failure(e);
        case Success(_) =>
          var item := new SharefileItem(data.value, config);
          r := Success(item);
      }
    }

    /**
      `update(request)`: `response` is the PATCH's answer. Each request key is checked,
      in order, against the response, the first failure throwing with nothing
      changed; when all pass, the response is merged into this item, which is returned.
    */
    method Update(request: seq<Entry>, response: Result<Payload, Error>) returns (r: Result<SharefileItem, Error>)
      modifies this
      ensures response.Failure? ==> r == Failure(response.error) && fields == old(fields)
      ensures response.Success? && Verify(request, response.value).Some? ==>
        r == Failure(Verify(request, response.value).value) && fields == old(fields)
      ensures response.Success? && Verify(request, response.value).None? ==>
        r == Success(this) && fields == Merge(old(fields), response.value)
    {
      if response.Failure? {
        return Failure(response.error);
      }
      var data := response.value;
      var i := 0;
      while i < |request|
        invariant 0 <= i <= |request|
        invariant Verify(request, data) == Verify(request[i..], data)
      {
        var e := request[i];
        assert request[i..][0] == e && request[i..][1..] == request[i + 1..];
        var updated := Lookup(data, e.key);
        match e.value {
          case Record(inner) =>
            var keys := inner.Keys;
            while keys != {}
              invariant keys <= inner.Keys
              invariant forall j :: j in inner.Keys - keys ==> InnerLookup(updated, j) == Some(inner[j])
              decreases keys
            {
              var j :| j in keys;
              if Some(inner[j]) != InnerLookup(updated, j) {
                return Failure(CouldNotUpdate(e.key));
              }
              keys := keys - {j};
            }
          case Scalar(x) =>
            if x == Null {
              return Failure(NotAnObject(e.key));
            }
            if updated != Some(Scalar(x)) {
              return Failure(CouldNotUpdate(e.key));
            }
        }
        i := i + 1;
      }
      fields := Merge(fields, data);
      r := Success(this);
    }

    /** `renameTo(name)`: a verified rename leaves the item named `name`. */
    method RenameTo(name: string, response: Result<Payload, Error>) returns (r: Result<SharefileItem, Error>)
      modifies this
      ensures response.Failure? ==> r == Failure(response.error) && fields == old(fields)
      ensures response.Success? && Lookup(response.value, "Name") != Some(Scalar(Str(name))) ==>
        r == Failure(CouldNotUpdate("Name")) && fields == old(fields)
      ensures response.Success? && Lookup(response.value, "Name") == Some(Scalar(Str(name))) ==>
        && r == Success(this) && fields == Merge(old(fields), response.value)
        && fields["Name"] == Scalar(Str(name))
    {
      if response.Success? {
        RenameVerdict(name, response.value);
      }
      r := Update(RenameRequest(name), response);
    }

    /** `moveTo(parentId)`: a verified move leaves the item's `Parent.Id` equal to `parentId`. */
    method MoveTo(parentId: string, response: Result<Payload, Error>) returns (r: Result<SharefileItem, Error>)
      modifies this
      ensures response.Failure? ==> r == Failure(response.error) && fields == old(fields)
      ensures response.Success? && InnerLookup(Lookup(response.value, "Parent"), "Id") != Some(Str(parentId)) ==>
        r == Failure(CouldNotUpdate("Parent")) && fields == old(fields)
      ensures response.Success? && InnerLookup(Lookup(response.value, "Parent"), "Id") == Some(Str(parentId)) ==>
        && r == Success(this) && fields == Merge(old(fields), response.value)
        && InnerLookup(Lookup(fields, "Parent"), "Id") == Some(Str(parentId))
    {
      if response.Success? {
        MoveVerdict(parentId, response.value);
      }
      r := Update(MoveRequest(parentId), response);
    }

    /**
      `upload(contents, filename)`: `prepare` is the answer to the prepare-upload POST;
      it is wrapped in an upload specification, which then performs the transfer.
    */
    method Upload(prepare: Result<Option<UploadSpecifications.PrepareUploadApiResponse>, Error>,
                  contents: UploadSpecifications.Contents,
                  encode: string -> seq<UploadSpecifications.byte>,
                  detect: seq<UploadSpecifications.byte> -> string,
                  submit: Result<UploadSpecifications.SubmitUploadApiResponse, Error>)
      returns (request: Option<UploadSpecifications.SubmitRequest>,
               r: Result<Option<UploadSpecifications.UploadInfo>, Error>)
      ensures prepare.Failure? ==> request == None && r == Failure(prepare.error)
      ensures prepare.Success? && UploadSpecifications.FromResponse(prepare.value).Failure? ==>
        request == None && r == Failure(UploadSpecifications.FromResponse(prepare.value).error)
      ensures prepare.Success? && UploadSpecifications.FromResponse(prepare.value).Success? ==>
        var spec := UploadSpecifications.FromResponse(prepare.value).value;
        && (request.Some? <==> spec.transferMethod == UploadSpecifications.StandardMethod)
        && (request.Some? ==>
              var body := if contents.Buffer? then contents.bytes else encode(contents.text);
              request.value == UploadSpecifications.SubmitRequest(UploadSpecifications.SubmitTarget(spec), body, detect(body)))
        && r == (if spec.transferMethod == UploadSpecifications.StandardMethod
                 then UploadSpecifications.Interpret(submit)
                 else Failure(UnsupportedUploadMethod))
    {
      if prepare.Failure? {
        return None, Failure(prepare.error);
      }
      match UploadSpecifications.FromResponse(prepare.value) {
        case Failure(e) => request, r := None, Failure(e);
        case Success(spec) => request, r := UploadSpecifications.Upload(spec, contents, encode, detect, submit);
      }
    }
  }
}
