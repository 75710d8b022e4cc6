/**
 * The fixed tables both scripts share: the topic rotation and the SEO
 * keywords per topic, and which of the two scripts is running.
 */
module Catalog {
  import opened Wrappers

  /**
   * The two scripts: `OpenAiScript` is DevOpsLinkedinAutomation.py (remote
   * completion API, diagrams under a relative directory), `HuggingFaceScript`
   * is DevOpsLinkedinAutomation3.py (local GPT-2 pipeline, diagrams under an
   * absolute Windows directory).
   */
  datatype Script = OpenAiScript | HuggingFaceScript

  /** `TOPICS`, in rotation order. */
  const Topics: seq<string> := [
    "DevOps",
    "Kubernetes",
    "Docker",
    "Helm",
    "Terraform",
    "Azure",
    "EKS",
    "AKS"
  ]

  /**
   * `SEO_KEYWORDS`: the keyword text put into the prompt for each topic.
   * Each text is written as a concatenation of its comma-separated phrases,
   * which is the same string.
   */
  const SeoKeywords: map<string, string> := map[
    "DevOps" :=
      "DevOps practices, "
      + "CI/CD pipelines, "
      + "automation, "
      + "cloud-native development, "
      + "infrastructure as code",
    "Kubernetes" :=
      "Kubernetes orchestration, "
      + "container management, "
      + "cloud-native apps, "
      + "K8s clusters, "
      + "microservices",
    "Docker" :=
      "Docker containers, "
      + "containerization, "
      + "Docker images, "
      + "DevOps tools, "
      + "cloud deployment",
    "Helm" :=
      "Helm charts, "
      + "Kubernetes package manager, "
      + "app deployment, "
      + "Helm templates, "
      + "DevOps tools",
    "Terraform" :=
      "Terraform infrastructure as code, "
      + "cloud provisioning, "
      + "multi-cloud deployment, "
      + "DevOps automation",
    "Azure" :=
      "Microsoft Azure, "
      + "cloud computing, "
      + "Azure DevOps, "
      + "cloud services, "
      + "Azure Kubernetes Service (AKS)",
    "EKS" :=
      "Amazon EKS, "
      + "Kubernetes on AWS, "
      + "managed Kubernetes, "
      + "cloud-native apps, "
      + "AWS services",
    "AKS" :=
      "Azure Kubernetes Service, "
      + "managed Kubernetes, "
      + "cloud-native apps, "
      + "Azure DevOps, "
      + "container orchestration"
  ]

  /**
   * `SEO_KEYWORDS[topic]`, with `None` where Python raises `KeyError`.
   * Every topic of the rotation has keywords, and nothing else does.
   */
  function KeywordsFor(topic: string): (r: Option<string>)
    ensures r.Some? <==> topic in Topics
    ensures r.Some? ==> topic in SeoKeywords && r.value == SeoKeywords[topic]
  {
    if topic in SeoKeywords then Some(SeoKeywords[topic]) else None
  }

  /** The rotation holds eight distinct topics. */
  lemma TopicsDistinct()
    ensures |Topics| == 8
    ensures forall i, j :: 0 <= i < j < |Topics| ==> Topics[i] != Topics[j]
  {
  }
}
