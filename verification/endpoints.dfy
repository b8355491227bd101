/** The API base URL and the endpoint path table: fixed paths for the auth,
    upload and list/create calls, and builders that put a document or folder
    id into a path. One module per endpoint group. */

module ApiBase {
  import opened JsValues

  const DefaultBaseUrl := "http://localhost:4000"

  /** `VITE_API_URL || 'http://localhost:4000'`: the configured URL unless it
      is missing or empty. `viteApiUrl` stands for the build environment's value. */
  function BaseUrl(viteApiUrl: Option<string>): (url: string)
    ensures Truthy(viteApiUrl) ==> url == viteApiUrl.value
    ensures !Truthy(viteApiUrl) ==> url == DefaultBaseUrl
    ensures url != ""
  {
    OrElse(viteApiUrl, DefaultBaseUrl)
  }
}

module AuthEndpoints {
  const Register := "/auth/register"
  const Login := "/auth/login"
  const VerifyOtp := "/auth/verify-otp"
  const RequestOtp := "/auth/request-otp"

  /** The four auth endpoints are different paths. */
  lemma AuthEndpointsDistinct()
    ensures |{Register, Login, VerifyOtp, RequestOtp}| == 4
  {
  }
}

module UploadEndpoints {
  const Upload := "/upload"
}

module DocumentEndpoints {
  import opened JsValues
  import opened Paths

  const List := "/documents"

  /** Every by-id document path starts with this. */
  const Prefix := "/documents/"

  /** `/documents/${id}` */
  function Get(id: string): (p: string)
    ensures StartsWith(p, Prefix)
    ensures Strip(Prefix, "", p) == Some(id)
  {
    StripJoin(Prefix, id, "");
    Join(Prefix, id, "")
  }

  /** `/documents/${id}/download` */
  function Download(id: string): (p: string)
    ensures StartsWith(p, Prefix) && EndsWith(p, "/download")
    ensures Strip(Prefix, "/download", p) == Some(id)
  {
    StripJoin(Prefix, id, "/download");
    Join(Prefix, id, "/download")
  }

  /** `/documents/${id}`, the same path as `Get`. */
  function Delete(id: string): (p: string)
    ensures StartsWith(p, Prefix)
    ensures Strip(Prefix, "", p) == Some(id)
  {
    StripJoin(Prefix, id, "");
    Join(Prefix, id, "")
  }

  /** `/documents/${id}/regenerate` */
  function Regenerate(id: string): (p: string)
    ensures StartsWith(p, Prefix) && EndsWith(p, "/regenerate")
    ensures Strip(Prefix, "/regenerate", p) == Some(id)
  {
    StripJoin(Prefix, id, "/regenerate");
    Join(Prefix, id, "/regenerate")
  }

  /** `/documents/${id}/visibility` */
  function Visibility(id: string): (p: string)
    ensures StartsWith(p, Prefix) && EndsWith(p, "/visibility")
    ensures Strip(Prefix, "/visibility", p) == Some(id)
  {
    StripJoin(Prefix, id, "/visibility");
    Join(Prefix, id, "/visibility")
  }

  /** `/documents/${id}/move` */
  function Move(id: string): (p: string)
    ensures StartsWith(p, Prefix) && EndsWith(p, "/move")
    ensures Strip(Prefix, "/move", p) == Some(id)
  {
    StripJoin(Prefix, id, "/move");
    Join(Prefix, id, "/move")
  }

  /** Fetching and deleting a document address the same path. */
  lemma GetIsDelete(id: string)
    ensures Get(id) == Delete(id)
  {
  }

  /** Each builder determines its id: equal paths mean equal ids. */
  lemma BuildersInjective(a: string, b: string)
    ensures Get(a) == Get(b) ==> a == b
    ensures Download(a) == Download(b) ==> a == b
    ensures Delete(a) == Delete(b) ==> a == b
    ensures Regenerate(a) == Regenerate(b) ==> a == b
    ensures Visibility(a) == Visibility(b) ==> a == b
    ensures Move(a) == Move(b) ==> a == b
  {
  }

  /** For one id, the five distinct by-id operations give five different paths. */
  lemma ByIdPathsDistinct(id: string)
    ensures |{Get(id), Download(id), Regenerate(id), Visibility(id), Move(id)}| == 5
  {
  }

  /** An id containing `/` makes two builders collide: the fetch path of
      `x/move` is the move path of `x`. */
  lemma SlashInIdCollides()
    ensures Get("x/move") == Move("x")
  {
  }

  /** For slash-free ids, two of the five builders GET, DOWNLOAD, REGENERATE,
      VISIBILITY and MOVE never give the same path, even for different ids. */
  lemma ByIdPathsDistinctAcrossIds(a: string, b: string)
    requires SlashFree(a) && SlashFree(b)
    ensures Get(a) != Download(b) && Get(a) != Regenerate(b)
    ensures Get(a) != Visibility(b) && Get(a) != Move(b)
    ensures Download(a) != Regenerate(b) && Download(a) != Visibility(b)
    ensures Download(a) != Move(b) && Regenerate(a) != Visibility(b)
    ensures Regenerate(a) != Move(b) && Visibility(a) != Move(b)
  {
    var suffixes := ["", "/download", "/regenerate", "/visibility", "/move"];
    forall i, j | 0 <= i < j < 5
      ensures Join(Prefix, a, suffixes[i]) != Join(Prefix, b, suffixes[j])
    {
      if Join(Prefix, a, suffixes[i]) == Join(Prefix, b, suffixes[j]) {
        JoinSegmentsInjective(Prefix, a, suffixes[i], b, suffixes[j]);
      }
    }
    assert Get(a) == Join(Prefix, a, suffixes[0]);
    assert Download(a) == Join(Prefix, a, suffixes[1]) && Download(b) == Join(Prefix, b, suffixes[1]);
    assert Regenerate(a) == Join(Prefix, a, suffixes[2]) && Regenerate(b) == Join(Prefix, b, suffixes[2]);
    assert Visibility(a) == Join(Prefix, a, suffixes[3]) && Visibility(b) == Join(Prefix, b, suffixes[3]);
    assert Move(b) == Join(Prefix, b, suffixes[4]);
  }

  /** The list path is never a by-id path. */
  lemma ListIsNotById(id: string)
    ensures List != Get(id) && List != Delete(id)
    ensures List != Download(id) && List != Regenerate(id)
    ensures List != Visibility(id) && List != Move(id)
  {
  }
}

module FolderEndpoints {
  import opened JsValues
  import opened Paths

  const List := "/folders"
  const Create := "/folders"

  /** Every by-id folder path starts with this. */
  const Prefix := "/folders/"

  /** `/folders/${id}` */
  function Get(id: string): (p: string)
    ensures StartsWith(p, Prefix)
    ensures Strip(Prefix, "", p) == Some(id)
  {
    StripJoin(Prefix, id, "");
    Join(Prefix, id, "")
  }

  /** `/folders/${id}` */
  function Update(id: string): (p: string)
    ensures StartsWith(p, Prefix)
    ensures Strip(Prefix, "", p) == Some(id)
  {
    StripJoin(Prefix, id, "");
    Join(Prefix, id, "")
  }

  /** `/folders/${id}` */
  function Delete(id: string): (p: string)
    ensures StartsWith(p, Prefix)
    ensures Strip(Prefix, "", p) == Some(id)
  {
    StripJoin(Prefix, id, "");
    Join(Prefix, id, "")
  }

  /** Reading, updating and deleting a folder address one path, and listing
      and creating address the collection path. */
  lemma FolderPathsAgree(id: string)
    ensures Get(id) == Update(id) == Delete(id)
    ensures List == Create == "/folders"
  {
  }

  /** Each builder determines its id. */
  lemma BuildersInjective(a: string, b: string)
    ensures Get(a) == Get(b) ==> a == b
    ensures Update(a) == Update(b) ==> a == b
    ensures Delete(a) == Delete(b) ==> a == b
  {
  }

  /** The collection path is never a by-id path. */
  lemma ListIsNotById(id: string)
    ensures List != Get(id) && List != Update(id) && List != Delete(id)
  {
  }
}

/** Facts that span the endpoint groups. */
module EndpointTable {
  import opened Paths
  import AuthEndpoints
  import DocumentEndpoints
  import UploadEndpoints
  import FolderEndpoints

  /** Every endpoint path, fixed or built, is rooted at `/`. */
  lemma EndpointPathsRooted(id: string)
    ensures StartsWith(AuthEndpoints.Register, "/") && StartsWith(AuthEndpoints.Login, "/")
    ensures StartsWith(AuthEndpoints.VerifyOtp, "/") && StartsWith(AuthEndpoints.RequestOtp, "/")
    ensures StartsWith(UploadEndpoints.Upload, "/")
    ensures StartsWith(DocumentEndpoints.List, "/") && StartsWith(DocumentEndpoints.Get(id), "/")
    ensures StartsWith(DocumentEndpoints.Download(id), "/") && StartsWith(DocumentEndpoints.Delete(id), "/")
    ensures StartsWith(DocumentEndpoints.Regenerate(id), "/") && StartsWith(DocumentEndpoints.Visibility(id), "/")
    ensures StartsWith(DocumentEndpoints.Move(id), "/")
    ensures StartsWith(FolderEndpoints.List, "/") && StartsWith(FolderEndpoints.Create, "/")
    ensures StartsWith(FolderEndpoints.Get(id), "/") && StartsWith(FolderEndpoints.Update(id), "/")
    ensures StartsWith(FolderEndpoints.Delete(id), "/")
  {
  }

  /** Document and folder paths never collide, whatever the ids: every
      document by-id path differs from the folder by-id path (which GET,
      UPDATE and DELETE share), and the two list paths differ. */
  lemma DocumentAndFolderPathsDisjoint(a: string, b: string)
    ensures DocumentEndpoints.Get(a) != FolderEndpoints.Get(b)
    ensures DocumentEndpoints.Download(a) != FolderEndpoints.Get(b)
    ensures DocumentEndpoints.Delete(a) != FolderEndpoints.Get(b)
    ensures DocumentEndpoints.Regenerate(a) != FolderEndpoints.Get(b)
    ensures DocumentEndpoints.Visibility(a) != FolderEndpoints.Get(b)
    ensures DocumentEndpoints.Move(a) != FolderEndpoints.Get(b)
    ensures DocumentEndpoints.List != FolderEndpoints.List
  {
    assert FolderEndpoints.Get(b)[1] == 'f';
    assert DocumentEndpoints.Get(a)[1] == 'd';
    assert DocumentEndpoints.Download(a)[1] == 'd';
    assert DocumentEndpoints.Delete(a)[1] == 'd';
    assert DocumentEndpoints.Regenerate(a)[1] == 'd';
    assert DocumentEndpoints.Visibility(a)[1] == 'd';
    assert DocumentEndpoints.Move(a)[1] == 'd';
  }
}
