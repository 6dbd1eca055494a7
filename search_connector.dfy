/**
 * SearchConnector: picks one of the three wait-room searches from the
 * request's search type and hands it the request's body.
 */
module Search {
  import opened Errors

  /** The three injected search services. */
  datatype SearchKind = RoomIdSearch | RoomNameSearch | HostNameSearch

  /** `SearchWaitRoomDto`: the search type as sent, and the search term. */
  datatype SearchRequest = SearchRequest(searchType: string, body: string)

  /** Upper-casing of one character (the ASCII letters; every other character is kept). */
  function UpperChar(c: char): char {
    if 'a' <= c <= 'z' then (c as int - 32) as char else c
  }

  /** Upper-casing of a string, character by character. */
  function ToUpper(s: string): (r: string)
    ensures |r| == |s|
    ensures forall i :: 0 <= i < |s| ==> r[i] == UpperChar(s[i])
  {
    if s == [] then [] else [UpperChar(s[0])] + ToUpper(s[1..])
  }

  /** `upperSearchType`: the search type, upper-cased. */
  function UpperSearchType(dto: SearchRequest): string {
    ToUpper(dto.searchType)
  }

  /** The search type that selects each search. */
  function TypeName(kind: SearchKind): string {
    match kind
    case RoomIdSearch => "WAITROOMID"
    case RoomNameSearch => "WAITROOMNAME"
    case HostNameSearch => "HOSTNAME"
  }

  /**
   * `connectSearchService`: the search whose type name is the upper-cased
   * search type, or NotFound when no search has that name.
   */
  function ConnectSearchService(dto: SearchRequest): (r: Result<SearchKind>)
    ensures r.Success? ==> TypeName(r.value) == UpperSearchType(dto)
    ensures r.Failure? <==> forall kind :: TypeName(kind) != UpperSearchType(dto)
    ensures r.Failure? ==> r.error == NotFound
  {
    match UpperSearchType(dto)
    case "WAITROOMID" => Success(RoomIdSearch)
    case "WAITROOMNAME" => Success(RoomNameSearch)
    case "HOSTNAME" => Success(HostNameSearch)
    case _ => Failure(NotFound)
  }

  /**
   * `searchWaitRoomCondition`: the chosen search applied to the body, its
   * answer returned as it is; an unknown type fails with NotFound and no
   * search answers.
   */
  function SearchWaitRoomCondition<V>(dto: SearchRequest,
                                      roomIdSearch: string -> seq<V>,
                                      roomNameSearch: string -> seq<V>,
                                      hostNameSearch: string -> seq<V>): (r: Result<seq<V>>)
    ensures r.Failure? <==> ConnectSearchService(dto).Failure?
    ensures r.Failure? ==> r.error == NotFound
    ensures UpperSearchType(dto) == "WAITROOMID" ==> r == Success(roomIdSearch(dto.body))
    ensures UpperSearchType(dto) == "WAITROOMNAME" ==> r == Success(roomNameSearch(dto.body))
    ensures UpperSearchType(dto) == "HOSTNAME" ==> r == Success(hostNameSearch(dto.body))
  {
    match ConnectSearchService(dto)
    case Failure(e) => Failure(e)
    case Success(kind) =>
      match kind
      case RoomIdSearch => Success(roomIdSearch(dto.body))
      case RoomNameSearch => Success(roomNameSearch(dto.body))
      case HostNameSearch => Success(hostNameSearch(dto.body))
  }

  /** A string without lower-case ASCII letters is its own upper-case form. */
  lemma ToUpperOfUpper(s: string)
    requires forall i :: 0 <= i < |s| ==> !('a' <= s[i] <= 'z')
    ensures ToUpper(s) == s
  {
  }

  /** Upper-casing twice is upper-casing once. */
  lemma ToUpperIdempotent(s: string)
    ensures ToUpper(ToUpper(s)) == ToUpper(s)
  {
  }

  /** Type names are already upper-case. */
  lemma TypeNameUpper(kind: SearchKind)
    ensures ToUpper(TypeName(kind)) == TypeName(kind)
  {
    ToUpperOfUpper(TypeName(kind));
  }

  /** Every search is reached by its own type name: dispatch inverts TypeName. */
  lemma ConnectTypeName(kind: SearchKind, body: string)
    ensures ConnectSearchService(SearchRequest(TypeName(kind), body)) == Success(kind)
  {
    TypeNameUpper(kind);
  }

  /** Dispatch ignores the letter case of the search type. */
  lemma ConnectIgnoresCase(dto: SearchRequest)
    ensures ConnectSearchService(dto) == ConnectSearchService(SearchRequest(UpperSearchType(dto), dto.body))
  {
    ToUpperIdempotent(dto.searchType);
  }

  /** Dispatch depends on the upper-cased search type alone, not on the body. */
  lemma ConnectOnlyOnType(a: SearchRequest, b: SearchRequest)
    requires UpperSearchType(a) == UpperSearchType(b)
    ensures ConnectSearchService(a) == ConnectSearchService(b)
  {
  }

  /** A lower-case spelling of a type name selects the same search. */
  lemma ConnectLowerCaseRoomId(body: string)
    ensures ConnectSearchService(SearchRequest("waitRoomId", body)) == Success(RoomIdSearch)
  {
    var upper := ToUpper("waitRoomId");
    assert upper == "WAITROOMID" by {
      assert |upper| == 10;
      forall i | 0 <= i < 10 ensures upper[i] == "WAITROOMID"[i] {
        assert upper[i] == UpperChar("waitRoomId"[i]);
      }
    }
  }
}
